/**
 * The case-list document (processes.json): one record per onboarding case, and the
 * status update that both the coordination server and the runners' file fallback apply to it.
 */
module CaseList {

  /** One onboarding case. `status` is one of In Progress, Needs Attention, Needs Review, Void, Done;
      `currentStatus` is free display text. `year` is the creation date the server stamps at reset. */
  datatype Case = Case(
    id: string,
    name: string,
    category: string,
    stockId: string,
    year: string,
    status: string,
    currentStatus: string,
    vendorName: string,
    materialCategory: string,
    project: string)

  /** `processes.findIndex(p => p.id === id)`: the first position whose id matches, or -1. */
  function FindCase(cases: seq<Case>, id: string): (k: int)
    ensures -1 <= k < |cases|
    ensures k >= 0 ==> cases[k].id == id && forall j :: 0 <= j < k ==> cases[j].id != id
    ensures k == -1 ==> forall j :: 0 <= j < |cases| ==> cases[j].id != id
  {
    if cases == [] then -1
    else if cases[0].id == id then 0
    else
      var k := FindCase(cases[1..], id);
      if k == -1 then -1 else k + 1
  }

  /** Sets `status` and `currentStatus` of the first record with this id; every other record, and every
      other field of that record, is left as it was. Without a matching record nothing changes. */
  function SetCaseStatus(cases: seq<Case>, id: string, status: string, text: string): (r: seq<Case>)
    ensures |r| == |cases|
    ensures forall j :: 0 <= j < |cases| && cases[j].id != id ==> r[j] == cases[j]
    ensures forall j :: 0 <= j < |cases| && j != FindCase(cases, id) ==> r[j] == cases[j]
    ensures (forall j :: 0 <= j < |cases| ==> cases[j].id != id) ==> r == cases
    ensures FindCase(cases, id) >= 0 ==>
      var k := FindCase(cases, id);
      r[k] == cases[k].(status := status, currentStatus := text)
  {
    var k := FindCase(cases, id);
    if k == -1 then cases else cases[k := cases[k].(status := status, currentStatus := text)]
  }

  /** Of two updates to the same case, only the later one shows: a runner's last push decides the
      case's status. Sending the same update twice is the special case of idempotence. */
  lemma SetCaseStatusLastWins(cases: seq<Case>, id: string, s1: string, t1: string, s2: string, t2: string)
    ensures SetCaseStatus(SetCaseStatus(cases, id, s1, t1), id, s2, t2) == SetCaseStatus(cases, id, s2, t2)
  {
    var once := SetCaseStatus(cases, id, s1, t1);
    var k := FindCase(cases, id);
    if k != -1 {
      assert FindCase(once, id) == k by {
        assert once[k].id == id;
        assert forall j :: 0 <= j < k ==> once[j] == cases[j];
        FindCaseIsFirst(once, id, k);
      }
    }
  }

  /** `FindCase` is determined by the records: the first index holding the id. */
  lemma FindCaseIsFirst(cases: seq<Case>, id: string, k: nat)
    requires k < |cases| && cases[k].id == id
    requires forall j :: 0 <= j < k ==> cases[j].id != id
    ensures FindCase(cases, id) == k
  {
  }
}
