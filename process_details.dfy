/**
 * The helper logic of the case view in ProcessDetails.jsx: the document viewer's zoom and page
 * controls with the page count guessed from a document's label, the up/down navigation between
 * cases, the cut of the activity log at the first decision waiting for the user, the lookup of
 * the table that goes with an artifact, and the side bar's list of artifacts without repeated ids.
 */
module CaseView {
  import opened Wrappers
  import opened JsText
  import CoordinationServer

  /** What an artifact carries besides its identity: the flags an email draft has, and an opaque
      rendering of its content (a table's rows, a draft's text). */
  datatype ArtifactData = ArtifactData(isIncoming: bool, isSent: bool, content: string)

  /** An artifact attached to a log entry; `name` is its label. A missing label is the empty
      text and a missing page count is 0. */
  datatype Artifact = Artifact(id: Option<string>, kind: string, name: string, totalPages: nat,
                               data: Option<ArtifactData>)

  /** One entry of the activity log; a missing artifact list is the empty one. */
  datatype Log = Log(title: string, artifacts: seq<Artifact>)

  // ---------------------------------------------------------------- the document viewer

  const MinZoom := 25
  const MaxZoom := 300
  const ZoomStep := 10
  const InitialZoom := 100

  /** The label keywords that fix a page count, in the order they are tried. */
  const PageKeywords: seq<(string, nat)> :=
    [("protocol", 45), ("sow", 12), ("invoice", 2), ("quotation", 3), ("report", 8)]
  /** The page count of a document whose label names no keyword. */
  const DefaultPages := 6

  /** `getMockTotalPages`: the page count of the first keyword the lower-cased label contains,
      and the default when it contains none. */
  function MockTotalPages(caption: string): (r: nat)
    ensures r in {45, 12, 2, 3, 8, DefaultPages}
  {
    var l := Lower(caption);
    if Includes(l, "protocol") then 45
    else if Includes(l, "sow") then 12
    else if Includes(l, "invoice") then 2
    else if Includes(l, "quotation") then 3
    else if Includes(l, "report") then 8
    else 6
  }

  /** The page count comes from the first keyword of the table that the lower-cased label
      contains, in the table's order, and is the default exactly when it contains none. */
  lemma MockPagesPriority(caption: string)
    ensures forall k :: 0 <= k < |PageKeywords| ==>
              (MockTotalPages(caption) == PageKeywords[k].1 <==>
                 Includes(Lower(caption), PageKeywords[k].0)
                 && forall j :: 0 <= j < k ==> !Includes(Lower(caption), PageKeywords[j].0))
    ensures MockTotalPages(caption) == DefaultPages <==>
              forall k :: 0 <= k < |PageKeywords| ==> !Includes(Lower(caption), PageKeywords[k].0)
  {
    var l := Lower(caption);
    assert PageKeywords[0].0 == "protocol" && PageKeywords[1].0 == "sow" && PageKeywords[2].0 == "invoice";
    assert PageKeywords[3].0 == "quotation" && PageKeywords[4].0 == "report";
    forall k | 0 <= k < |PageKeywords|
      ensures MockTotalPages(caption) == PageKeywords[k].1 <==>
                Includes(l, PageKeywords[k].0) && forall j :: 0 <= j < k ==> !Includes(l, PageKeywords[j].0)
    {
      if k == 0 {
      } else if k == 1 {
      } else if k == 2 {
      } else if k == 3 {
      } else {
      }
    }
  }

  /** The page count shown: the artifact's own when it has one, otherwise the guess from the
      label. A document always has at least one page. */
  function TotalPages(a: Artifact): (r: nat)
    ensures r >= 1
    ensures a.totalPages != 0 ==> r == a.totalPages
    ensures a.totalPages == 0 ==> r == MockTotalPages(a.name)
  {
    if a.totalPages != 0 then a.totalPages else MockTotalPages(a.name)
  }

  /** The zoom-out button: ten percent less, but never below the minimum. */
  function ZoomOut(z: int): (r: int)
    ensures MinZoom <= r && z - ZoomStep <= r
    ensures r == z - ZoomStep || r == MinZoom
  {
    if z - ZoomStep > MinZoom then z - ZoomStep else MinZoom
  }

  /** The zoom-in button: ten percent more, but never above the maximum. */
  function ZoomIn(z: int): (r: int)
    ensures r <= MaxZoom && r <= z + ZoomStep
    ensures r == z + ZoomStep || r == MaxZoom
  {
    if z + ZoomStep < MaxZoom then z + ZoomStep else MaxZoom
  }

  /** The previous-page button: one page back, but never before the first. */
  function PreviousPage(p: int): (r: int)
    ensures 1 <= r && p - 1 <= r
    ensures r == p - 1 || r == 1
  {
    if p - 1 > 1 then p - 1 else 1
  }

  /** The next-page button: one page on, but never past the last. */
  function NextPage(p: int, total: nat): (r: int)
    ensures r <= total && r <= p + 1
    ensures r == p + 1 || r == total
  {
    if p + 1 < total then p + 1 else total
  }

  /** The page-number field: the text is taken only when `parseInt` reads a number from it that
      is a page of the document. */
  function TypedPage(text: string, total: nat): (r: Option<int>)
    ensures r.Some? <==> ParseInt(text).Some? && 1 <= ParseInt(text).value <= total
    ensures r.Some? ==> r == ParseInt(text)
  {
    var v := ParseInt(text);
    if v.Some? && 1 <= v.value <= total then v else None
  }

  /** Typing the number of any page of the document, as it is displayed, goes to that page. */
  lemma TypedPageRoundTrip(p: nat, total: nat)
    requires 1 <= p <= total
    ensures TypedPage(Decimal(p), total) == Some(p)
  {
    ParseDecimal(p, "");
    assert Decimal(p) + "" == Decimal(p);
  }

  /** Within the zoom range one step out and one step in undo each other. */
  lemma ZoomStepsUndo(z: int)
    requires MinZoom <= z <= MaxZoom
    ensures z - ZoomStep >= MinZoom ==> ZoomIn(ZoomOut(z)) == z
    ensures z + ZoomStep <= MaxZoom ==> ZoomOut(ZoomIn(z)) == z
    ensures ZoomOut(z) == z <==> z == MinZoom
    ensures ZoomIn(z) == z <==> z == MaxZoom
  {
  }

  /** The document viewer of one artifact: its zoom in percent and the page it shows. */
  class DocumentViewer {
    const totalPages: nat
    var zoom: int
    var activePage: int

    /** The zoom stays within its bounds and the page is a page of the document. */
    ghost predicate Valid()
      reads this
    {
      MinZoom <= zoom <= MaxZoom && 1 <= activePage <= totalPages
    }

    /** The viewer opens at 100% on the first page. */
    constructor (artifact: Artifact)
      ensures totalPages == TotalPages(artifact)
      ensures zoom == InitialZoom && activePage == 1
      ensures Valid()
    {
      totalPages := TotalPages(artifact);
      zoom := InitialZoom;
      activePage := 1;
    }

    method ZoomOutClick()
      requires Valid()
      modifies this`zoom
      ensures zoom == ZoomOut(old(zoom)) && Valid()
    {
      zoom := ZoomOut(zoom);
    }

    method ZoomInClick()
      requires Valid()
      modifies this`zoom
      ensures zoom == ZoomIn(old(zoom)) && Valid()
    {
      zoom := ZoomIn(zoom);
    }

    method PreviousPageClick()
      requires Valid()
      modifies this`activePage
      ensures activePage == PreviousPage(old(activePage)) && Valid()
    {
      activePage := PreviousPage(activePage);
    }

    method NextPageClick()
      requires Valid()
      modifies this`activePage
      ensures activePage == NextPage(old(activePage), totalPages) && Valid()
    {
      activePage := NextPage(activePage, totalPages);
    }

    /** A change of the page-number field: a page of the document is shown, anything else is
        ignored. */
    method TypePage(text: string)
      requires Valid()
      modifies this`activePage
      ensures TypedPage(text, totalPages).Some? ==> activePage == TypedPage(text, totalPages).value
      ensures TypedPage(text, totalPages).None? ==> activePage == old(activePage)
      ensures Valid()
    {
      var page := TypedPage(text, totalPages);
      if page.Some? {
        activePage := page.value;
      }
    }
  }

  // ---------------------------------------------------------------- navigation between cases

  /** `findIndex` on case ids: the first position of `id`, or -1. */
  function IndexOf(ids: seq<string>, id: string): (r: int)
    ensures -1 <= r < |ids|
    ensures r >= 0 ==> ids[r] == id && forall j :: 0 <= j < r ==> ids[j] != id
    ensures r == -1 <==> id !in ids
  {
    if ids == [] then -1
    else if ids[0] == id then 0
    else
      var r := IndexOf(ids[1..], id);
      if r == -1 then -1 else r + 1
  }

  predicate CanGoUp(ids: seq<string>, id: string) {
    IndexOf(ids, id) > 0
  }

  predicate CanGoDown(ids: seq<string>, id: string) {
    IndexOf(ids, id) < |ids| - 1
  }

  /** `handleNavigateUp`: the case to open, if moving up is allowed. */
  function NavigateUp(ids: seq<string>, id: string): (target: Option<string>)
    ensures target.Some? <==> CanGoUp(ids, id)
    ensures target.Some? ==> target.value in ids && target.value != id
  {
    if CanGoUp(ids, id) then Some(ids[IndexOf(ids, id) - 1]) else None
  }

  /** `handleNavigateDown`: the case to open, if moving down is allowed. */
  function NavigateDown(ids: seq<string>, id: string): (target: Option<string>)
    ensures target.Some? <==> CanGoDown(ids, id)
    ensures target.Some? ==> target.value in ids
  {
    if CanGoDown(ids, id) then Some(ids[IndexOf(ids, id) + 1]) else None
  }

  /** The case ids are pairwise distinct. */
  predicate DistinctIds(ids: seq<string>) {
    forall i, j :: 0 <= i < j < |ids| ==> ids[i] != ids[j]
  }

  /** In a list of distinct cases, moving up and then down comes back, and the first case cannot
      move up nor the last one down. */
  lemma NavigationUndoes(ids: seq<string>, id: string)
    requires DistinctIds(ids)
    ensures NavigateUp(ids, id).Some? ==> NavigateDown(ids, NavigateUp(ids, id).value) == Some(id)
    ensures NavigateDown(ids, id).Some? && id in ids ==> NavigateUp(ids, NavigateDown(ids, id).value) == Some(id)
    ensures |ids| > 0 ==> !CanGoUp(ids, ids[0]) && !CanGoDown(ids, ids[|ids| - 1])
  {
    if NavigateUp(ids, id).Some? {
      var i := IndexOf(ids, id);
      IndexOfDistinct(ids, i - 1);
    }
    if NavigateDown(ids, id).Some? && id in ids {
      var i := IndexOf(ids, id);
      IndexOfDistinct(ids, i + 1);
    }
    if |ids| > 0 {
      IndexOfDistinct(ids, |ids| - 1);
    }
  }

  /** In a list of distinct cases every case is found at its own position. */
  lemma IndexOfDistinct(ids: seq<string>, k: nat)
    requires DistinctIds(ids) && k < |ids|
    ensures IndexOf(ids, ids[k]) == k
  {
  }

  /** A case that is not in the list can always move down when the list is not empty: it opens
      the first case. */
  lemma UnknownCaseGoesToFirst(ids: seq<string>, id: string)
    requires id !in ids && |ids| > 0
    ensures !CanGoUp(ids, id) && NavigateDown(ids, id) == Some(ids[0])
  {
  }

  // ---------------------------------------------------------------- the activity-log cut

  /** The three demonstration cases whose log stops at a pending decision. */
  const DemoCases := ["DIR_001", "DIR_002", "DIR_003"]
  const NeedsAttention := "Needs Attention"

  /** An outgoing email draft not yet sent, or a decision. */
  predicate PendingDecision(a: Artifact) {
    || (a.kind == "email_draft" && !(a.data.Some? && a.data.value.isIncoming)
        && !(a.data.Some? && a.data.value.isSent))
    || a.kind == "decision"
  }

  /** Whether a log entry carries a pending decision. */
  function HasPendingDecision(log: Log): (r: bool)
    ensures r <==> exists k :: 0 <= k < |log.artifacts| && PendingDecision(log.artifacts[k])
  {
    HasDecisionFrom(log.artifacts, 0)
  }

  function HasDecisionFrom(arts: seq<Artifact>, i: nat): (r: bool)
    requires i <= |arts|
    ensures r <==> exists k :: i <= k < |arts| && PendingDecision(arts[k])
    decreases |arts| - i
  {
    if i == |arts| then false else PendingDecision(arts[i]) || HasDecisionFrom(arts, i + 1)
  }

  /** `findIndex` for the first entry with a pending decision, or -1. */
  function DecisionIndex(logs: seq<Log>): (r: int)
    ensures -1 <= r < |logs|
    ensures r >= 0 ==> HasPendingDecision(logs[r])
    ensures forall j :: 0 <= j < |logs| && (r == -1 || j < r) ==> !HasPendingDecision(logs[j])
  {
    if logs == [] then -1
    else if HasPendingDecision(logs[0]) then 0
    else
      var r := DecisionIndex(logs[1..]);
      assert forall j :: 1 <= j < |logs| ==> logs[j] == logs[1..][j - 1];
      if r == -1 then -1 else r + 1
  }

  predicate StartsWith(s: string, prefix: string) {
    |prefix| <= |s| && s[..|prefix|] == prefix
  }

  /** The status the cut looks at: the status stored in the browser, which the demonstration
      cases (ids starting with `DIR_`) never use, else the case list's, else the log document's;
      the empty text counts as no status. */
  function EffectiveStatus(caseId: string, stored: Option<string>, listed: Option<string>,
                           logged: Option<string>): (r: Option<string>)
    ensures StartsWith(caseId, "DIR_") ==> r == (if listed.Some? && listed.value != "" then listed else logged)
    ensures !StartsWith(caseId, "DIR_") && stored.Some? && stored.value != "" ==> r == stored
    ensures !(stored.Some? && stored.value != "") ==>
      r == (if listed.Some? && listed.value != "" then listed else logged)
  {
    var local := if StartsWith(caseId, "DIR_") then None else stored;
    if local.Some? && local.value != "" then local
    else if listed.Some? && listed.value != "" then listed
    else logged
  }

  /** When the log is cut: a demonstration case that needs attention, no replay running, the
      case not marked active, and fewer entries shown so far than fetched. */
  predicate CutApplies(caseId: string, status: Option<string>, isSimulating: bool, isActive: bool,
                       shown: nat, logs: seq<Log>) {
    caseId in DemoCases && status == Some(NeedsAttention) && !isSimulating && !isActive && shown < |logs|
  }

  /** The entries displayed after a fetch: when the cut applies and some entry has a pending
      decision, the entries up to and including the first such one; otherwise all of them. */
  function DisplayedLogs(caseId: string, status: Option<string>, isSimulating: bool, isActive: bool,
                         shown: nat, logs: seq<Log>): (r: seq<Log>)
    ensures |r| <= |logs| && r == logs[..|r|]
    ensures CutApplies(caseId, status, isSimulating, isActive, shown, logs) && DecisionIndex(logs) >= 0 ==>
              && |r| > 0 && HasPendingDecision(r[|r| - 1])
              && forall j :: 0 <= j < |r| - 1 ==> !HasPendingDecision(r[j])
    ensures !CutApplies(caseId, status, isSimulating, isActive, shown, logs) || DecisionIndex(logs) == -1 ==>
              r == logs
  {
    if CutApplies(caseId, status, isSimulating, isActive, shown, logs) then
      var d := DecisionIndex(logs);
      if d != -1 then logs[..d + 1] else logs
    else logs
  }

  /** The cases the coordination server serves are none of the demonstration cases, so their
      log is always displayed in full. */
  lemma ServedCasesShowWholeLog(caseId: string, status: Option<string>, isSimulating: bool,
                                isActive: bool, shown: nat, logs: seq<Log>)
    requires caseId in CoordinationServer.FixtureIds
    ensures DisplayedLogs(caseId, status, isSimulating, isActive, shown, logs) == logs
  {
    assert caseId[0] == 'V';
    assert forall d :: d in DemoCases ==> d[0] == 'D';
  }

  // ---------------------------------------------------------------- the associated table

  /** The ids of some artifacts, in order. */
  function Ids(arts: seq<Artifact>): (r: seq<Option<string>>)
    ensures |r| == |arts| && forall k :: 0 <= k < |arts| ==> r[k] == arts[k].id
  {
    if arts == [] then [] else [arts[0].id] + Ids(arts[1..])
  }

  /** A table artifact with data other than the artifact with id `id`. */
  predicate IsTableFor(a: Artifact, id: Option<string>) {
    a.kind == "table" && a.data.Some? && a.id != id
  }

  /** The `find` for a table: the position of the first table for `id`, or `|arts|`. */
  function TableIndex(arts: seq<Artifact>, id: Option<string>): (k: nat)
    ensures k <= |arts|
    ensures k < |arts| ==> IsTableFor(arts[k], id)
    ensures forall j :: 0 <= j < k ==> !IsTableFor(arts[j], id)
  {
    if arts == [] then 0
    else if IsTableFor(arts[0], id) then 0
    else
      assert forall j :: 1 <= j < |arts| ==> arts[j] == arts[1..][j - 1];
      1 + TableIndex(arts[1..], id)
  }

  /** A log entry that mentions the artifact and holds a table for it. */
  predicate Supplies(log: Log, id: Option<string>) {
    id in Ids(log.artifacts) && TableIndex(log.artifacts, id) < |log.artifacts|
  }

  /** The position of the first entry, from `i` on, that supplies a table for `id`, or `|logs|`. */
  function SupplierIndex(logs: seq<Log>, id: Option<string>, i: nat): (k: nat)
    requires i <= |logs|
    ensures i <= k <= |logs|
    ensures k < |logs| ==> Supplies(logs[k], id)
    ensures forall j :: i <= j < k ==> !Supplies(logs[j], id)
    decreases |logs| - i
  {
    if i == |logs| then i
    else if Supplies(logs[i], id) then i
    else SupplierIndex(logs, id, i + 1)
  }

  /** `findAssociatedData`: the artifact's own data if it has some; otherwise the data of the
      first table, with data and another id, in the first log entry that mentions the artifact
      and holds such a table; otherwise nothing. */
  function Associated(art: Artifact, logs: seq<Log>): (r: Option<ArtifactData>)
    ensures art.data.Some? ==> r == art.data
    ensures art.data.None? && r.Some? ==>
              var k := SupplierIndex(logs, art.id, 0);
              && k < |logs| && art.id in Ids(logs[k].artifacts)
              && r == logs[k].artifacts[TableIndex(logs[k].artifacts, art.id)].data
              && (forall j :: 0 <= j < k ==> !Supplies(logs[j], art.id))
    ensures art.data.None? && r.None? ==> forall j :: 0 <= j < |logs| ==> !Supplies(logs[j], art.id)
  {
    if art.data.Some? then art.data
    else
      var k := SupplierIndex(logs, art.id, 0);
      if k < |logs| then logs[k].artifacts[TableIndex(logs[k].artifacts, art.id)].data else None
  }

  /** The lookup loop, which returns as soon as an entry supplies a table. */
  method FindAssociatedData(art: Artifact, logs: seq<Log>) returns (r: Option<ArtifactData>)
    ensures r == Associated(art, logs)
  {
    if art.data.Some? {
      return art.data;
    }
    for i := 0 to |logs|
      invariant SupplierIndex(logs, art.id, 0) == SupplierIndex(logs, art.id, i)
    {
      var arts := logs[i].artifacts;
      if art.id in Ids(arts) {
        var t := TableIndex(arts, art.id);
        if t < |arts| {
          return arts[t].data;
        }
      }
    }
    return None;
  }

  // ---------------------------------------------------------------- the side bar's artifacts

  /** No two artifacts share an id. */
  predicate UniqueIds(arts: seq<Artifact>) {
    forall i, j :: 0 <= i < j < |arts| ==> arts[i].id != arts[j].id
  }

  /** The position of the first artifact with id `id`, or `|arts|`. */
  function IdIndex(arts: seq<Artifact>, id: Option<string>): (k: nat)
    ensures k <= |arts|
    ensures k < |arts| ==> arts[k].id == id
    ensures forall j :: 0 <= j < k ==> arts[j].id != id
    ensures k == |arts| <==> id !in Ids(arts)
  {
    if arts == [] then 0
    else if arts[0].id == id then 0
    else
      assert forall j :: 1 <= j < |arts| ==> arts[j] == arts[1..][j - 1];
      assert Ids(arts) == [arts[0].id] + Ids(arts[1..]);
      1 + IdIndex(arts[1..], id)
  }

  /** One push of the reduce: an artifact joins the list unless its id is already there. */
  function AddIfNew(acc: seq<Artifact>, a: Artifact): seq<Artifact> {
    if a.id in Ids(acc) then acc else acc + [a]
  }

  /** The list after offering `arts` one by one. */
  function AddAll(acc: seq<Artifact>, arts: seq<Artifact>): seq<Artifact> {
    if arts == [] then acc else AddIfNew(AddAll(acc, arts[..|arts| - 1]), arts[|arts| - 1])
  }

  /** The artifacts of the log entries, entry by entry. */
  function Flatten(logs: seq<Log>): seq<Artifact> {
    if logs == [] then [] else Flatten(logs[..|logs| - 1]) + logs[|logs| - 1].artifacts
  }

  /** `allArtifacts`: the artifacts of the displayed log entries without repeated ids, then the
      manually listed ones whose id is not there yet. */
  function SidebarArtifacts(logs: seq<Log>, manual: seq<Artifact>): seq<Artifact> {
    AddAll(AddAll([], Flatten(logs)), manual)
  }

  lemma IdsSnoc(acc: seq<Artifact>, a: Artifact)
    ensures Ids(acc + [a]) == Ids(acc) + [a.id]
  {
  }

  /** Offering artifacts keeps the list as a prefix. */
  lemma {:induction false} AddAllPrefix(acc: seq<Artifact>, arts: seq<Artifact>)
    ensures |acc| <= |AddAll(acc, arts)| && AddAll(acc, arts)[..|acc|] == acc
  {
    if arts != [] {
      var r' := AddAll(acc, arts[..|arts| - 1]);
      AddAllPrefix(acc, arts[..|arts| - 1]);
      assert (r' + [arts[|arts| - 1]])[..|acc|] == r'[..|acc|];
    }
  }

  /** Offering artifacts adds exactly the ids offered. */
  lemma {:induction false} AddAllIds(acc: seq<Artifact>, arts: seq<Artifact>)
    ensures forall id :: id in Ids(AddAll(acc, arts)) <==> id in Ids(acc) || id in Ids(arts)
  {
    if arts != [] {
      var p := arts[..|arts| - 1];
      var x := arts[|arts| - 1];
      AddAllIds(acc, p);
      assert arts == p + [x];
      IdsSnoc(p, x);
      var r' := AddAll(acc, p);
      if x.id !in Ids(r') {
        IdsSnoc(r', x);
      }
    }
  }

  /** Offering artifacts never repeats an id. */
  lemma {:induction false} AddAllUnique(acc: seq<Artifact>, arts: seq<Artifact>)
    requires UniqueIds(acc)
    ensures UniqueIds(AddAll(acc, arts))
  {
    if arts != [] {
      var p := arts[..|arts| - 1];
      var x := arts[|arts| - 1];
      AddAllUnique(acc, p);
      var r' := AddAll(acc, p);
      if x.id !in Ids(r') {
        var r := r' + [x];
        forall i, j | 0 <= i < j < |r|
          ensures r[i].id != r[j].id
        {
          if j == |r'| {
            assert Ids(r')[i] == r'[i].id;
          }
        }
      }
    }
  }

  /** The first artifact with an id, among `p` followed by `x`. */
  lemma IdIndexSnoc(p: seq<Artifact>, x: Artifact, id: Option<string>)
    ensures id in Ids(p) ==> IdIndex(p + [x], id) == IdIndex(p, id)
    ensures id !in Ids(p) && x.id == id ==> IdIndex(p + [x], id) == |p|
  {
    var q := p + [x];
    var k := IdIndex(q, id);
    if id in Ids(p) {
      var m := IdIndex(p, id);
      assert q[m] == p[m];
    } else if x.id == id {
      assert q[|p|].id == id;
    }
  }

  /** Every artifact the offering adds is the first one offered with its id, whose id was not in
      the list before, and they are added in the order those first occurrences come. */
  lemma {:induction false} AddAllFirstOccurrences(acc: seq<Artifact>, arts: seq<Artifact>)
    ensures var r := AddAll(acc, arts);
      forall k :: |acc| <= k < |r| ==>
        r[k].id !in Ids(acc) && IdIndex(arts, r[k].id) < |arts| && r[k] == arts[IdIndex(arts, r[k].id)]
  {
    AddAllPrefix(acc, arts);
    if arts != [] {
      var p := arts[..|arts| - 1];
      var x := arts[|arts| - 1];
      assert arts == p + [x];
      AddAllFirstOccurrences(acc, p);
      AddAllPrefix(acc, p);
      var r' := AddAll(acc, p);
      var r := AddAll(acc, arts);
      forall k | |acc| <= k < |r|
        ensures r[k].id !in Ids(acc) && IdIndex(arts, r[k].id) < |arts| && r[k] == arts[IdIndex(arts, r[k].id)]
      {
        if k < |r'| {
          assert r[k] == r'[k];
          IdIndexSnoc(p, x, r'[k].id);
          assert arts[IdIndex(p, r'[k].id)] == p[IdIndex(p, r'[k].id)];
        } else {
          assert r == r' + [x] && r[k] == x;
          AddAllIds(acc, p);
          IdIndexSnoc(p, x, x.id);
        }
      }
    }
  }

  /** The artifacts the offering adds come in the order of their first occurrences. */
  lemma {:induction false} AddAllInOrder(acc: seq<Artifact>, arts: seq<Artifact>)
    ensures var r := AddAll(acc, arts);
      forall k1, k2 :: |acc| <= k1 < k2 < |r| ==> IdIndex(arts, r[k1].id) < IdIndex(arts, r[k2].id)
  {
    if arts != [] {
      var p := arts[..|arts| - 1];
      var x := arts[|arts| - 1];
      assert arts == p + [x];
      AddAllInOrder(acc, p);
      AddAllFirstOccurrences(acc, p);
      AddAllPrefix(acc, p);
      AddAllIds(acc, p);
      InOrderStep(|acc|, p, x, AddAll(acc, p));
    }
  }

  /** Positions among `p` do not move when `x` is appended. */
  lemma IdIndexSnocAll(from: nat, p: seq<Artifact>, x: Artifact, r': seq<Artifact>)
    requires forall k :: from <= k < |r'| ==> IdIndex(p, r'[k].id) < |p|
    ensures forall k :: from <= k < |r'| ==> IdIndex(p + [x], r'[k].id) == IdIndex(p, r'[k].id)
  {
    forall k | from <= k < |r'|
      ensures IdIndex(p + [x], r'[k].id) == IdIndex(p, r'[k].id)
    {
      IdIndexSnoc(p, x, r'[k].id);
    }
  }

  /** An artifact whose first occurrence comes after all the others' is appended in order. */
  lemma InOrderAppend(from: nat, q: seq<Artifact>, x: Artifact, r': seq<Artifact>)
    requires from <= |r'|
    requires forall k :: from <= k < |r'| ==> IdIndex(q, r'[k].id) < IdIndex(q, x.id)
    requires forall k1, k2 :: from <= k1 < k2 < |r'| ==> IdIndex(q, r'[k1].id) < IdIndex(q, r'[k2].id)
    ensures var r := r' + [x];
      forall k1, k2 :: from <= k1 < k2 < |r| ==> IdIndex(q, r[k1].id) < IdIndex(q, r[k2].id)
  {
    var r := r' + [x];
    forall k1, k2 | from <= k1 < k2 < |r|
      ensures IdIndex(q, r[k1].id) < IdIndex(q, r[k2].id)
    {
      assert r[k1] == r'[k1];
      if k2 < |r'| {
        assert r[k2] == r'[k2];
      } else {
        assert r[k2] == x;
      }
    }
  }

  /** One more offered artifact keeps the added ones in the order of their first occurrences. */
  lemma InOrderStep(from: nat, p: seq<Artifact>, x: Artifact, r': seq<Artifact>)
    requires from <= |r'|
    requires forall k :: from <= k < |r'| ==> IdIndex(p, r'[k].id) < |p|
    requires forall k1, k2 :: from <= k1 < k2 < |r'| ==> IdIndex(p, r'[k1].id) < IdIndex(p, r'[k2].id)
    requires x.id !in Ids(r') ==> x.id !in Ids(p)
    ensures var r := AddIfNew(r', x);
      forall k1, k2 :: from <= k1 < k2 < |r| ==> IdIndex(p + [x], r[k1].id) < IdIndex(p + [x], r[k2].id)
  {
    IdIndexSnocAll(from, p, x, r');
    if x.id in Ids(r') {
      assert AddIfNew(r', x) == r';
    } else {
      IdIndexSnoc(p, x, x.id);
      assert AddIfNew(r', x) == r' + [x];
      InOrderAppend(from, p + [x], x, r');
    }
  }

  /** The side bar lists every id once: the log artifacts without repeats come first, and the
      ids listed are exactly those of the log and manual artifacts. */
  lemma SidebarIds(logs: seq<Log>, manual: seq<Artifact>)
    ensures var fromLogs := AddAll([], Flatten(logs));
      var r := SidebarArtifacts(logs, manual);
      && UniqueIds(r)
      && |fromLogs| <= |r| && r[..|fromLogs|] == fromLogs
      && (forall x :: x in Ids(r) <==> x in Ids(Flatten(logs)) || x in Ids(manual))
  {
    var all := Flatten(logs);
    var fromLogs := AddAll([], all);
    AddAllUnique([], all);
    AddAllUnique(fromLogs, manual);
    AddAllPrefix(fromLogs, manual);
    AddAllIds([], all);
    AddAllIds(fromLogs, manual);
  }

  /** Each log artifact listed is the first artifact with its id in log order, and a manual
      artifact is listed only when no log artifact and no earlier manual artifact has its id. */
  lemma SidebarOrigins(logs: seq<Log>, manual: seq<Artifact>)
    ensures var all := Flatten(logs);
      var fromLogs := AddAll([], all);
      var r := SidebarArtifacts(logs, manual);
      && |fromLogs| <= |r|
      && (forall k :: 0 <= k < |fromLogs| ==>
            IdIndex(all, r[k].id) < |all| && r[k] == all[IdIndex(all, r[k].id)])
      && (forall k :: |fromLogs| <= k < |r| ==>
            r[k].id !in Ids(all) && IdIndex(manual, r[k].id) < |manual| && r[k] == manual[IdIndex(manual, r[k].id)])
  {
    SidebarLogPart(Flatten(logs), manual);
    SidebarManualPart(Flatten(logs), manual);
  }

  /** The log part of the side bar: each entry is the first log artifact with its id. */
  lemma SidebarLogPart(all: seq<Artifact>, manual: seq<Artifact>)
    ensures var fromLogs := AddAll([], all);
      var r := AddAll(fromLogs, manual);
      && |fromLogs| <= |r|
      && forall k :: 0 <= k < |fromLogs| ==> IdIndex(all, r[k].id) < |all| && r[k] == all[IdIndex(all, r[k].id)]
  {
    var fromLogs := AddAll([], all);
    AddAllPrefix(fromLogs, manual);
    AddAllFirstOccurrences([], all);
    forall k | 0 <= k < |fromLogs|
      ensures AddAll(fromLogs, manual)[k] == fromLogs[k]
    {
      assert AddAll(fromLogs, manual)[..|fromLogs|][k] == fromLogs[k];
    }
  }

  /** The manual part of the side bar: each entry is the first manual artifact with its id, and
      no log artifact has that id. */
  lemma SidebarManualPart(all: seq<Artifact>, manual: seq<Artifact>)
    ensures var fromLogs := AddAll([], all);
      var r := AddAll(fromLogs, manual);
      forall k :: |fromLogs| <= k < |r| ==>
        r[k].id !in Ids(all) && IdIndex(manual, r[k].id) < |manual| && r[k] == manual[IdIndex(manual, r[k].id)]
  {
    var fromLogs := AddAll([], all);
    AddAllFirstOccurrences(fromLogs, manual);
    AddAllIds([], all);
    assert Ids([]) == [];
  }

  /** Offering a list in two parts is offering the first part, then the second. */
  lemma {:induction false} AddAllAppend(acc: seq<Artifact>, a: seq<Artifact>, b: seq<Artifact>)
    ensures AddAll(acc, a + b) == AddAll(AddAll(acc, a), b)
  {
    if b == [] {
      assert a + b == a;
    } else {
      assert (a + b)[..|a + b| - 1] == a + b[..|b| - 1];
      AddAllAppend(acc, a, b[..|b| - 1]);
    }
  }

  /** The artifacts of the first `i + 1` entries are those of the first `i`, then the next one's. */
  lemma FlattenNext(logs: seq<Log>, i: nat)
    requires i < |logs|
    ensures Flatten(logs[..i + 1]) == Flatten(logs[..i]) + logs[i].artifacts
  {
    assert logs[..i + 1][..i] == logs[..i];
  }

  /** The `forEach` push: each artifact is added unless an artifact with its id is listed. */
  method Offer(acc: seq<Artifact>, arts: seq<Artifact>) returns (acc': seq<Artifact>)
    ensures acc' == AddAll(acc, arts)
  {
    acc' := acc;
    for j := 0 to |arts|
      invariant acc' == AddAll(acc, arts[..j])
    {
      assert arts[..j + 1][..j] == arts[..j];
      if arts[j].id !in Ids(acc') {
        acc' := acc' + [arts[j]];
      }
    }
    assert arts[..|arts|] == arts;
  }

  /** The reduce over the displayed entries and the loop over the manual artifacts. */
  method AllArtifacts(logs: seq<Log>, manual: seq<Artifact>) returns (acc: seq<Artifact>)
    ensures acc == SidebarArtifacts(logs, manual)
  {
    acc := [];
    for i := 0 to |logs|
      invariant acc == AddAll([], Flatten(logs[..i]))
    {
      acc := Offer(acc, logs[i].artifacts);
      FlattenNext(logs, i);
      AddAllAppend([], Flatten(logs[..i]), logs[i].artifacts);
    }
    assert logs[..|logs|] == logs;
    acc := Offer(acc, manual);
  }
}
