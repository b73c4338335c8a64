/**
 * vendor_story_4_needs_review.cjs: the runner of case VND_004 (DesignCraft Interiors). Its ten steps
 * run without stopping; the risk findings only show in the titles, and the last push leaves the case
 * "Needs Review".
 */
module Story4NeedsReview {
  import opened CaseList
  import opened CaseLog
  import opened CoordinationServer
  import opened Runner

  const CaseId := "VND_004"

  /** The key details of the first write. */
  const KeyDetails := map[
    "vendorName" := "DesignCraft Interiors Pvt Ltd",
    "gstin" := "07AABCD8901R1ZQ",
    "pan" := "AABCD8901R",
    "materialCategory" := "Interior Design & Fit-out",
    "project" := "Goa Luxury Villas, Candolim",
    "applicationRef" := "VRF-2025-0215",
    "contactPerson" := "Neha Kapoor",
    "annualRevenue" := "Rs. 12 Crore"]

  /** The ten steps' ids and titles. */
  const Texts := [
    StepText("step-1", "Receiving vendor registration package...",
             "Vendor application received - DesignCraft Interiors Pvt Ltd"),
    StepText("step-2", "Extracting firm details from application...",
             "Firm details extracted - MSME medium enterprise, 85 employees"),
    StepText("step-3", "Validating GSTIN on GST portal...",
             "GSTIN verified - Active status, Delhi registration"),
    StepText("step-4", "Verifying PAN and company incorporation records...",
             "PAN and CIN verified - Incorporated 2015, active company"),
    StepText("step-5", "Running financial health assessment...",
             "Financial health: MODERATE - Revenue Rs. 12 Cr, thin margins (8.3%)"),
    StepText("step-6", "Running RERA compliance check across state portals...",
             "WARNING: RERA PENALTY FOUND - UP RERA penalty of Rs. 8 Lakh (2023)"),
    StepText("step-7", "Analyzing penalty details and impact...",
             "Penalty analysis: Quality issues on 120-unit project, 6-month delay, Rs. 8L fine"),
    StepText("step-8", "Cross-referencing client references...",
             "References: 2 of 3 report 'Satisfactory' (not 'Excellent') - lukewarm feedback"),
    StepText("step-9", "Calculating comprehensive vendor risk score...",
             "Risk Score: 54/100 - MEDIUM-HIGH - Flagged for senior procurement review"),
    StepText("step-10", "Flagging for senior procurement review with complete findings...",
             "Escalated to Needs Review - Full findings submitted to senior procurement")]

  /** The script, with the narrative given for each step. */
  function Story(n: seq<Narrative>): Script
    requires |n| == |Texts|
  {
    Script(CaseId, Attach(Texts, n), KeyDetails, "Needs Review", NoCheckpoint)
  }

  /** The step ids are distinct and none is empty. */
  lemma TextsDistinct()
    ensures |Texts| == 10
    ensures forall j :: 0 <= j < |Texts| ==> Texts[j].id != ""
    ensures forall i, j :: 0 <= i < j < |Texts| ==> Texts[i].id != Texts[j].id
  {
  }

  /** The script is well formed: ten steps with distinct ids and no checkpoint. */
  lemma StoryWellFormed(n: seq<Narrative>)
    requires |n| == |Texts|
    ensures WellFormed(Story(n)) && |Story(n).steps| == |n|
  {
    TextsDistinct();
    AttachDistinct(Texts, n);
  }

  /** The runner's main loop: the document of VND_004 is rewritten with the key details and an
      empty log, every step then logs and pushes in turn, and the last push says "Needs Review". */
  method Run(srv: Server, n: seq<Narrative>, times: seq<string>, online: bool) returns (events: seq<Event>)
    requires |n| == |Texts| <= |times|
    modifies srv`caseDocs, srv`cases
    ensures events == Trace(Story(n), times, |n|)
    ensures srv.caseDocs == old(srv.caseDocs)[CaseId := CaseDoc(Log(Story(n), times, |n|), KeyDetails)]
    ensures srv.cases == SetCaseStatus(old(srv.cases), CaseId, "Needs Review", Texts[9].titleS)
  {
    StoryWellFormed(n);
    events := RunPlain(srv, Story(n), times, online);
  }
}
