/**
 * The feedback queue (feedbackQueue.json) and the knowledge-base version index (kbVersions.json)
 * with its snapshot files, as the coordination server reads and rewrites them.
 */
module Knowledge {
  import opened Wrappers
  import opened JsText

  /** A queued change request. `id` is None when the client sent none (the feedback modal never
      sends one); `status` and `timestamp` are "" when absent. */
  datatype FeedbackItem = FeedbackItem(
    id: Option<string>,
    title: string,
    feedback: string,
    questions: seq<string>,
    answers: seq<string>,
    summary: string,
    status: string,
    createdAt: string,
    timestamp: string)

  /** One entry of the version index; the two file names point into the snapshot directory. */
  datatype Version = Version(id: int, timestamp: string, snapshotFile: string, previousFile: string, changes: seq<string>)

  /** The version index holds ids 1, 2, ..., n in order: each id was `count + 1` when appended. */
  ghost predicate Numbered(vs: seq<Version>) {
    forall i :: 0 <= i < |vs| ==> vs[i].id == i + 1
  }

  /** POST /api/feedback/queue: the stored copy of the client's item, status forced to pending. */
  function Queued(item: FeedbackItem, now: string): (r: FeedbackItem)
    ensures r.status == "pending" && r.timestamp == now
    ensures r.(status := item.status, timestamp := item.timestamp) == item
  {
    item.(status := "pending", timestamp := now)
  }

  /** `queue.find(i => i.id === id)` as a position, -1 when absent. */
  function FindItem(q: seq<FeedbackItem>, id: Option<string>): (k: int)
    ensures -1 <= k < |q|
    ensures k >= 0 ==> q[k].id == id && forall j :: 0 <= j < k ==> q[j].id != id
    ensures k == -1 ==> forall j :: 0 <= j < |q| ==> q[j].id != id
  {
    if q == [] then -1
    else if q[0].id == id then 0
    else
      var k := FindItem(q[1..], id);
      if k == -1 then -1 else k + 1
  }

  /** `queue.filter(item => item.id !== id)`. */
  function WithoutId(q: seq<FeedbackItem>, id: Option<string>): (r: seq<FeedbackItem>)
    ensures |r| <= |q|
    ensures forall j :: 0 <= j < |r| ==> r[j].id != id
    ensures forall j :: 0 <= j < |q| && q[j].id != id ==> q[j] in r
    ensures forall j :: 0 <= j < |r| ==> r[j] in q
  {
    if q == [] then []
    else if q[0].id == id then WithoutId(q[1..], id)
    else [q[0]] + WithoutId(q[1..], id)
  }

  /** The filter keeps the survivors in their order: it distributes over concatenation. */
  lemma {:induction false} WithoutIdAppend(a: seq<FeedbackItem>, b: seq<FeedbackItem>, id: Option<string>)
    ensures WithoutId(a + b, id) == WithoutId(a, id) + WithoutId(b, id)
  {
    if a == [] {
      assert a + b == b;
    } else {
      assert (a + b)[1..] == a[1..] + b;
      WithoutIdAppend(a[1..], b, id);
    }
  }

  /** Deleting by id twice leaves the queue as deleting once does. */
  lemma {:induction false} WithoutIdIdempotent(q: seq<FeedbackItem>, id: Option<string>)
    ensures WithoutId(WithoutId(q, id), id) == WithoutId(q, id)
  {
    if q != [] {
      WithoutIdIdempotent(q[1..], id);
    }
  }

  /** Removing the item at `k` alone: everything before and after it stays, in order. */
  function RemoveApplied(q: seq<FeedbackItem>, k: nat): (r: seq<FeedbackItem>)
    requires k < |q|
    ensures |r| == |q| - 1
    ensures forall j :: 0 <= j < k ==> r[j] == q[j]
    ensures forall j :: k < j < |q| ==> r[j - 1] == q[j]
  {
    q[..k] + q[k + 1..]
  }

  /** No item other than the one at `k` has its id. */
  predicate IdUnique(q: seq<FeedbackItem>, k: nat)
    requires k < |q|
  {
    forall j :: 0 <= j < |q| && j != k ==> q[j].id != q[k].id
  }

  /** When the item's id is not shared with any other item, removing the applied item and filtering
      out its id agree. */
  lemma {:induction false} RemoveAppliedIsFilter(q: seq<FeedbackItem>, k: nat)
    requires k < |q| && IdUnique(q, k)
    ensures RemoveApplied(q, k) == WithoutId(q, q[k].id)
  {
    var id := q[k].id;
    var before, after := q[..k], q[k + 1..];
    assert q == before + ([q[k]] + after);
    WithoutIdAround(before, q[k], after);
    forall j | 0 <= j < |before|
      ensures before[j].id != id
    {
      assert before[j] == q[j];
    }
    forall j | 0 <= j < |after|
      ensures after[j].id != id
    {
      assert after[j] == q[k + 1 + j];
    }
    WithoutIdKeepsAll(before, id);
    WithoutIdKeepsAll(after, id);
  }

  /** Filtering out the id of an item filters the items before and after it. */
  lemma WithoutIdAround(a: seq<FeedbackItem>, x: FeedbackItem, b: seq<FeedbackItem>)
    ensures WithoutId(a + ([x] + b), x.id) == WithoutId(a, x.id) + WithoutId(b, x.id)
  {
    WithoutIdAppend(a, [x] + b, x.id);
    assert ([x] + b)[1..] == b;
  }

  /** A filter that matches nothing returns the queue unchanged. */
  lemma {:induction false} WithoutIdKeepsAll(q: seq<FeedbackItem>, id: Option<string>)
    requires forall j :: 0 <= j < |q| ==> q[j].id != id
    ensures WithoutId(q, id) == q
  {
    if q != [] {
      WithoutIdKeepsAll(q[1..], id);
    }
  }

  /** The apply endpoint as written filters the queue by the applied item's id. With two id-less
      items queued, applying the first one also drops the second, whose change never reached the
      knowledge base; removing the applied item alone keeps it. */
  lemma ApplyFilterDropsIdlessNeighbour(x: FeedbackItem, y: FeedbackItem)
    requires x.id.None? && y.id.None?
    ensures FindItem([x, y], x.id) == 0
    ensures WithoutId([x, y], x.id) == []
    ensures RemoveApplied([x, y], 0) == [y]
  {
    assert [x, y][1..] == [y];
    assert [y][1..] == [];
  }

  /** `versions.find(v => v.id === n)` as a position, -1 when absent. */
  function FindVersion(vs: seq<Version>, n: int): (k: int)
    ensures -1 <= k < |vs|
    ensures k >= 0 ==> vs[k].id == n && forall j :: 0 <= j < k ==> vs[j].id != n
    ensures k == -1 ==> forall j :: 0 <= j < |vs| ==> vs[j].id != n
  {
    if vs == [] then -1
    else if vs[0].id == n then 0
    else
      var k := FindVersion(vs[1..], n);
      if k == -1 then -1 else k + 1
  }

  /** The query of GET /api/kb/content: no (or an empty) `versionId`, or one whose `parseInt` is given
      (None for NaN). */
  datatype ContentQuery = Live | AtVersion(parsed: Option<int>)

  /** GET /api/kb/content: the live text, or the after-snapshot of the requested version; "" when the
      version or its snapshot file is missing. */
  function Content(vs: seq<Version>, snapshots: map<string, string>, kb: string, q: ContentQuery): (r: string)
    ensures q.Live? ==> r == kb
    ensures q.AtVersion? && q.parsed.Some? && FindVersion(vs, q.parsed.value) >= 0
            && vs[FindVersion(vs, q.parsed.value)].snapshotFile in snapshots
            ==> r == snapshots[vs[FindVersion(vs, q.parsed.value)].snapshotFile]
    ensures q.AtVersion? && (q.parsed.None? || FindVersion(vs, q.parsed.value) == -1) ==> r == ""
  {
    match q
    case Live => kb
    case AtVersion(None) => ""
    case AtVersion(Some(n)) =>
      var k := FindVersion(vs, n);
      if k == -1 then ""
      else if vs[k].snapshotFile in snapshots then snapshots[vs[k].snapshotFile]
      else ""
  }

  /** The query a `versionId` search parameter makes: a missing or empty one asks for the live text,
      any other is read with `parseInt`. */
  function QueryOf(versionId: Option<string>): (q: ContentQuery)
    ensures q.Live? <==> versionId.None? || versionId.value == ""
    ensures q.AtVersion? ==> q.parsed == ParseInt(versionId.value)
  {
    if versionId.None? || versionId.value == "" then Live else AtVersion(ParseInt(versionId.value))
  }

  /** A version number written in decimal, as the client puts it in the URL, selects that version. */
  lemma QueryOfDecimal(n: nat)
    ensures QueryOf(Some(Decimal(n))) == AtVersion(Some(n))
  {
    ParseDecimal(n, []);
    assert Decimal(n) + [] == Decimal(n);
  }

  /** Snapshot names derived from the sanitised ISO timestamp. */
  function BeforeFile(stamp: string): string { "kb_before_" + stamp + ".md" }
  function AfterFile(stamp: string): string { "kb_after_" + stamp + ".md" }

  /** The version record an apply appends. */
  function NewVersion(vs: seq<Version>, stamp: string, now: string, summary: string): (v: Version)
    ensures v.id == |vs| + 1 && v.changes == [summary]
    ensures v.snapshotFile == AfterFile(stamp) && v.previousFile == BeforeFile(stamp)
  {
    Version(|vs| + 1, now, AfterFile(stamp), BeforeFile(stamp), [summary])
  }

  /** In a numbered index, version n sits at position n - 1 and nothing else answers to n. */
  lemma NumberedFind(vs: seq<Version>, n: int)
    requires Numbered(vs)
    ensures FindVersion(vs, n) == if 1 <= n <= |vs| then n - 1 else -1
  {
    var k := FindVersion(vs, n);
    if 1 <= n <= |vs| {
      assert vs[n - 1].id == n;
    }
  }

  /** The version an apply appends is found by its number and serves the text the apply wrote. */
  lemma NewVersionContent(vs: seq<Version>, snapshots: map<string, string>, kb: string, out: string,
                          stamp: string, now: string, summary: string)
    requires Numbered(vs)
    ensures Numbered(vs + [NewVersion(vs, stamp, now, summary)])
    ensures Content(vs + [NewVersion(vs, stamp, now, summary)],
                    snapshots[BeforeFile(stamp) := kb][AfterFile(stamp) := out], out, AtVersion(Some(|vs| + 1))) == out
  {
    var vs' := vs + [NewVersion(vs, stamp, now, summary)];
    var snaps' := snapshots[BeforeFile(stamp) := kb][AfterFile(stamp) := out];
    assert Numbered(vs');
    NumberedFind(vs', |vs| + 1);
    assert vs'[|vs|].snapshotFile == AfterFile(stamp);
    assert snaps'[AfterFile(stamp)] == out;
  }

  /** Round trip of apply and content: after an apply that wrote `out`, asking for the new version's
      content, by number or by its decimal text, gives `out` back, and the index stays numbered.
      The before snapshot keeps the text the apply replaced: the two snapshot names never collide. */
  lemma ContentOfNewVersion(vs: seq<Version>, snapshots: map<string, string>, kb: string, out: string,
                            stamp: string, now: string, summary: string)
    requires Numbered(vs)
    ensures Numbered(vs + [NewVersion(vs, stamp, now, summary)])
    ensures
      var vs' := vs + [NewVersion(vs, stamp, now, summary)];
      var snaps' := snapshots[BeforeFile(stamp) := kb][AfterFile(stamp) := out];
      && Content(vs', snaps', out, AtVersion(Some(|vs| + 1))) == out
      && Content(vs', snaps', out, QueryOf(Some(Decimal(|vs| + 1)))) == out
      && snaps'[vs'[|vs|].previousFile] == kb
  {
    NewVersionContent(vs, snapshots, kb, out, stamp, now, summary);
    QueryOfDecimal(|vs| + 1);
    var v := NewVersion(vs, stamp, now, summary);
    assert (vs + [v])[|vs|] == v;
    assert snapshots[BeforeFile(stamp) := kb][AfterFile(stamp) := out][v.previousFile] == kb by {
      BeforeSnapshotKept(snapshots, kb, out, stamp);
    }
  }

  /** Writing the after snapshot leaves the before snapshot of the same apply in place. */
  lemma BeforeSnapshotKept(snapshots: map<string, string>, kb: string, out: string, stamp: string)
    ensures snapshots[BeforeFile(stamp) := kb][AfterFile(stamp) := out][BeforeFile(stamp)] == kb
  {
    assert BeforeFile(stamp)[3] == 'b' && AfterFile(stamp)[3] == 'a';
  }

  /** Deleting by the id of an item that has none (the string taken from the URL) never matches an
      id-less item: such items cannot be deleted on the server. */
  lemma DeleteNeverMatchesIdless(q: seq<FeedbackItem>, segment: string)
    ensures forall j :: 0 <= j < |q| && q[j].id.None? ==> q[j] in WithoutId(q, Some(segment))
  {
  }
}
