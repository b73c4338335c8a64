/**
 * vendor_story_1_happy_path.cjs: the runner of case VND_001 (UltraTech Cement), whose ten checks all
 * pass, so the case ends "Done" with no checkpoint on the way.
 */
module Story1HappyPath {
  import opened Wrappers
  import opened CaseList
  import opened CaseLog
  import opened CoordinationServer
  import opened Runner

  const CaseId := "VND_001"

  /** The key details of the first write. */
  const KeyDetails := map[
    "vendorName" := "UltraTech Cement Ltd",
    "gstin" := "06AABCU9603R1ZM",
    "pan" := "AABCU9603R",
    "materialCategory" := "Cement & Concrete",
    "project" := "Elaira Residences, Sector 80, Gurgaon",
    "applicationRef" := "VRF-2025-0187",
    "contactPerson" := "Rajesh Kumar Sharma"]

  /** The ten steps' ids and titles. */
  const Texts := [
    StepText("step-1", "Receiving vendor registration package...",
             "Vendor registration package received - 1 application form"),
    StepText("step-2", "Extracting vendor details from application...",
             "Vendor details extracted - GSTIN, PAN, banking, insurance captured"),
    StepText("step-3", "Validating GSTIN on GST portal...",
             "GSTIN verified - Status: ACTIVE, Haryana registration confirmed"),
    StepText("step-4", "Cross-checking PAN with Income Tax records...",
             "PAN verified - UltraTech Cement Ltd, no discrepancies"),
    StepText("step-5", "Running financial health assessment...",
             "Financial health: STRONG - Revenue Rs. 63,000 Cr, CRISIL AAA rated"),
    StepText("step-6", "Checking RERA compliance history across state portals...",
             "RERA check clean - No penalties or complaints found"),
    StepText("step-7", "Verifying insurance certificate...",
             "Insurance verified - ICICI Lombard, Rs. 10 Cr coverage, valid till Dec 2026"),
    StepText("step-8", "Verifying BIS and ISO certifications...",
             "All certifications valid - ISO 9001, ISO 14001, BIS IS 269 & IS 1489"),
    StepText("step-9", "Calculating vendor risk score...",
             "Risk Score: 82/100 - LOW RISK - Auto-approval eligible"),
    StepText("step-10", "Creating vendor master record in ERP...",
             "Vendor master created - Code: VND-UCL-2025-0187, sending welcome email")]

  /** The script, with the narrative given for each step. */
  function Story(n: seq<Narrative>): Script
    requires |n| == |Texts|
  {
    Script(CaseId, Attach(Texts, n), KeyDetails, "Done", NoCheckpoint)
  }

  /** The step ids are distinct and none is empty. */
  lemma TextsDistinct()
    ensures |Texts| == 10
    ensures forall j :: 0 <= j < |Texts| ==> Texts[j].id != ""
    ensures forall i, j :: 0 <= i < j < |Texts| ==> Texts[i].id != Texts[j].id
  {
  }

  /** The script is well formed: ten steps with distinct ids and no checkpoint. */
  lemma StoryWellFormed(n: seq<Narrative>)
    requires |n| == |Texts|
    ensures WellFormed(Story(n)) && |Story(n).steps| == |n|
  {
    TextsDistinct();
    AttachDistinct(Texts, n);
  }

  /** The runner's main loop: the document of VND_001 is rewritten with the key details and an
      empty log, and every step then logs and pushes in turn. */
  method Run(srv: Server, n: seq<Narrative>, times: seq<string>, online: bool) returns (events: seq<Event>)
    requires |n| == |Texts| <= |times|
    modifies srv`caseDocs, srv`cases
    ensures events == Trace(Story(n), times, |n|)
    ensures srv.caseDocs == old(srv.caseDocs)[CaseId := CaseDoc(Log(Story(n), times, |n|), KeyDetails)]
    ensures srv.cases == SetCaseStatus(old(srv.cases), CaseId, "Done", Texts[9].titleS)
  {
    StoryWellFormed(n);
    events := RunPlain(srv, Story(n), times, online);
  }
}
