/**
 * The per-case activity log document (process_<id>.json) and the upsert-by-id write that every
 * runner performs on it (`updateProcessLog`).
 */
module CaseLog {
  import opened Wrappers

  datatype LogStatus = Processing | Success | Warning | Completed | Error

  /** The structured payload of an artifact; only the flags the UI inspects are kept. */
  datatype Payload = Payload(isIncoming: bool, isSent: bool, body: string)

  /** An inspectable object attached to a log entry. `kind` is the source's `type` (file, json, video,
      email_draft, table, decision, ...), `labelText` its `label`; `totalPages` 0 stands for an absent
      page count. */
  datatype Artifact = Artifact(id: string, kind: string, labelText: string, data: Option<Payload>, totalPages: nat)

  /** One log entry as a runner writes it. A field that is None is absent from the written object and
      keeps what is already on file when the entry is merged; the empty id is the source's missing id. */
  datatype LogEntry = LogEntry(
    id: string,
    time: Option<string>,
    title: Option<string>,
    status: Option<LogStatus>,
    reasoning: Option<seq<string>>,
    artifacts: Option<seq<Artifact>>)

  /** The document: the ordered log and the flat key-details map. */
  datatype CaseDoc = CaseDoc(logs: seq<LogEntry>, keyDetails: map<string, string>)

  /** What a runner starts from when the document does not exist yet. */
  const EmptyDoc := CaseDoc([], map[])

  function Ids(logs: seq<LogEntry>): (r: seq<string>)
    ensures |r| == |logs| && forall j :: 0 <= j < |logs| ==> r[j] == logs[j].id
  {
    if logs == [] then [] else [logs[0].id] + Ids(logs[1..])
  }

  /** No two entries share an id, and none lacks one. */
  ghost predicate UniqueIds(logs: seq<LogEntry>) {
    (forall j :: 0 <= j < |logs| ==> logs[j].id != "") &&
    (forall i, j :: 0 <= i < j < |logs| ==> logs[i].id != logs[j].id)
  }

  /** `data.logs.findIndex(l => l.id === id)`. */
  function IndexOfId(logs: seq<LogEntry>, id: string): (k: int)
    ensures -1 <= k < |logs|
    ensures k >= 0 ==> logs[k].id == id && forall j :: 0 <= j < k ==> logs[j].id != id
    ensures k == -1 ==> id !in Ids(logs)
  {
    if logs == [] then -1
    else if logs[0].id == id then 0
    else
      var k := IndexOfId(logs[1..], id);
      if k == -1 then -1 else k + 1
  }

  /** `{ ...e, ...u }`: a field present in the update wins, an absent one keeps the old value. */
  function Merge(e: LogEntry, u: LogEntry): (r: LogEntry)
    ensures r.id == u.id
    ensures r.time == (if u.time.Some? then u.time else e.time)
    ensures r.title == (if u.title.Some? then u.title else e.title)
    ensures r.status == (if u.status.Some? then u.status else e.status)
    ensures r.reasoning == (if u.reasoning.Some? then u.reasoning else e.reasoning)
    ensures r.artifacts == (if u.artifacts.Some? then u.artifacts else e.artifacts)
  {
    LogEntry(u.id,
             if u.time.Some? then u.time else e.time,
             if u.title.Some? then u.title else e.title,
             if u.status.Some? then u.status else e.status,
             if u.reasoning.Some? then u.reasoning else e.reasoning,
             if u.artifacts.Some? then u.artifacts else e.artifacts)
  }

  /** The log after writing `u`: merged in place into the first entry with its id, or appended at the
      end when it has no id or its id is new, so positions follow first-write order. */
  function Upsert(logs: seq<LogEntry>, u: LogEntry): (r: seq<LogEntry>)
    ensures u.id != "" && u.id in Ids(logs) ==>
      var k := IndexOfId(logs, u.id);
      |r| == |logs| && r[k] == Merge(logs[k], u) &&
      forall j :: 0 <= j < |logs| && j != k ==> r[j] == logs[j]
    ensures u.id == "" || u.id !in Ids(logs) ==> r == logs + [u]
  {
    var k := if u.id != "" then IndexOfId(logs, u.id) else -1;
    if k != -1 then logs[k := Merge(logs[k], u)] else logs + [u]
  }

  /** `{ ...keyDetails, ...update }`, skipped when the update is empty: keys of the update win,
      every other key keeps its value. */
  function MergeKeyDetails(kd: map<string, string>, update: map<string, string>): (r: map<string, string>)
    ensures r.Keys == kd.Keys + update.Keys
    ensures forall key :: key in update ==> r[key] == update[key]
    ensures forall key :: key in kd && key !in update ==> r[key] == kd[key]
  {
    if |update| > 0 then kd + update else kd
  }

  /** The whole document after one `updateProcessLog` call. */
  function WriteLog(doc: CaseDoc, entry: Option<LogEntry>, update: map<string, string>): (r: CaseDoc)
    ensures entry.None? ==> r.logs == doc.logs
    ensures entry.Some? ==> r.logs == Upsert(doc.logs, entry.value)
    ensures r.keyDetails == MergeKeyDetails(doc.keyDetails, update)
  {
    CaseDoc(if entry.Some? then Upsert(doc.logs, entry.value) else doc.logs,
            MergeKeyDetails(doc.keyDetails, update))
  }

  /** Upserting keeps ids unique: a write never duplicates an entry. */
  lemma UpsertKeepsUnique(logs: seq<LogEntry>, u: LogEntry)
    requires UniqueIds(logs) && u.id != ""
    ensures UniqueIds(Upsert(logs, u))
    ensures Ids(Upsert(logs, u)) == if u.id in Ids(logs) then Ids(logs) else Ids(logs) + [u.id]
  {
    var r := Upsert(logs, u);
    if u.id in Ids(logs) {
      assert Ids(r) == Ids(logs);
    } else {
      assert forall j :: 0 <= j < |logs| ==> logs[j].id in Ids(logs);
    }
  }

  /** A write whose id is that of the last entry, and of no earlier one, merges into that entry: the
      log keeps one entry for the id, at the position of its first write. */
  lemma UpsertLast(logs: seq<LogEntry>, e: LogEntry, u: LogEntry)
    requires e.id != "" && e.id == u.id && e.id !in Ids(logs)
    ensures Upsert(logs + [e], u) == logs + [Merge(e, u)]
  {
    var once := logs + [e];
    assert Ids(once) == Ids(logs) + [e.id];
    assert IndexOfId(once, u.id) == |logs| by {
      forall j | 0 <= j < |logs| ensures once[j].id != u.id {
        assert logs[j].id in Ids(logs);
      }
      IndexOfIdIsFirst(once, u.id, |logs|);
    }
  }

  /** `IndexOfId` returns the first position holding the id. */
  lemma {:induction false} IndexOfIdIsFirst(logs: seq<LogEntry>, id: string, k: nat)
    requires k < |logs| && logs[k].id == id
    requires forall j :: 0 <= j < k ==> logs[j].id != id
    ensures IndexOfId(logs, id) == k
  {
    if k > 0 {
      IndexOfIdIsFirst(logs[1..], id, k - 1);
    }
  }
}
