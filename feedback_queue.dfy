/**
 * The feedback queue panel of FeedbackQueuePanel.jsx: the items fetched from the server, shown by
 * status tab with a count per tab, a selection of item ids, an optimistic delete that rolls back
 * when the server refuses, and "apply all", which applies the selected items or, with nothing
 * selected, every pending one.
 */
module FeedbackQueue {
  import opened Wrappers
  import opened Knowledge

  /** The four tabs the panel offers. */
  const OpenTab := "open"
  const QueuedTab := "queued"
  const ProcessingTab := "processing"
  const AppliedTab := "applied"

  /** Whether an item with `status` is listed under `tab`: an item without a status counts as
      open, "pending" is listed as queued, and an unknown tab lists nothing. */
  predicate InTab(tab: string, status: string) {
    if tab == OpenTab then status == "open" || status == ""
    else if tab == QueuedTab then status == "pending"
    else if tab == ProcessingTab then status == "processing"
    else if tab == AppliedTab then status == "applied"
    else false
  }

  /** `getFilteredItems`: the items listed under `tab`, in list order. */
  function Filtered(items: seq<FeedbackItem>, tab: string): (r: seq<FeedbackItem>)
    ensures |r| <= |items|
    ensures forall k :: 0 <= k < |r| ==> r[k] in items && InTab(tab, r[k].status)
    ensures forall k :: 0 <= k < |items| && InTab(tab, items[k].status) ==> items[k] in r
    ensures tab != OpenTab && tab != QueuedTab && tab != ProcessingTab && tab != AppliedTab ==> r == []
  {
    if items == [] then []
    else (if InTab(tab, items[0].status) then [items[0]] else []) + Filtered(items[1..], tab)
  }

  /** The count shown on each tab. */
  datatype Counts = Counts(open: nat, queued: nat, processing: nat, applied: nat)

  /** `counts`: each tab's count is the length of that tab's list. */
  function CountsOf(items: seq<FeedbackItem>): Counts {
    Counts(|Filtered(items, OpenTab)|, |Filtered(items, QueuedTab)|,
           |Filtered(items, ProcessingTab)|, |Filtered(items, AppliedTab)|)
  }

  /** The tab's list keeps the items in list order: filtering distributes over concatenation. */
  lemma {:induction false} FilteredAppend(a: seq<FeedbackItem>, b: seq<FeedbackItem>, tab: string)
    ensures Filtered(a + b, tab) == Filtered(a, tab) + Filtered(b, tab)
  {
    if a == [] {
      assert a + b == b;
    } else {
      assert (a + b)[1..] == a[1..] + b;
      FilteredAppend(a[1..], b, tab);
    }
  }

  /** No item is listed under two tabs, so the counts add up to at most the number of items. */
  lemma {:induction false} CountsBounded(items: seq<FeedbackItem>)
    ensures var c := CountsOf(items); c.open + c.queued + c.processing + c.applied <= |items|
  {
    if items != [] {
      CountsBounded(items[1..]);
    }
  }

  /** The ids of the pending items, in list order. */
  function PendingIds(items: seq<FeedbackItem>): (r: seq<Option<string>>)
    ensures |r| == |Filtered(items, QueuedTab)|
    ensures forall k :: 0 <= k < |r| ==> r[k] == Filtered(items, QueuedTab)[k].id
  {
    if items == [] then []
    else (if items[0].status == "pending" then [items[0].id] else []) + PendingIds(items[1..])
  }

  /** The ids "apply all" works through: the selection if it is not empty, otherwise the pending
      items' ids. */
  function ApplyIds(items: seq<FeedbackItem>, selected: seq<Option<string>>): (r: seq<Option<string>>)
    ensures |selected| > 0 ==> r == selected
    ensures |selected| == 0 ==>
              && |r| == |Filtered(items, QueuedTab)|
              && forall k :: 0 <= k < |r| ==> r[k] == Filtered(items, QueuedTab)[k].id
  {
    if |selected| > 0 then selected else PendingIds(items)
  }

  /** The ids are pairwise distinct. */
  predicate Distinct(ids: seq<Option<string>>) {
    forall i, j :: 0 <= i < j < |ids| ==> ids[i] != ids[j]
  }

  /** `Set.add`: the id joins the selection at the end unless it is already there. */
  function AddId(sel: seq<Option<string>>, id: Option<string>): (r: seq<Option<string>>)
    ensures forall x :: x in r <==> x in sel || x == id
    ensures Distinct(sel) ==> Distinct(r)
    ensures |sel| <= |r| && r[..|sel|] == sel
  {
    if id in sel then sel else sel + [id]
  }

  /** `Set.delete`: the id leaves the selection; the other ids keep their order. */
  function RemoveId(sel: seq<Option<string>>, id: Option<string>): (r: seq<Option<string>>)
    ensures forall x :: x in r <==> x in sel && x != id
    ensures Distinct(sel) ==> Distinct(r)
    ensures |r| <= |sel|
  {
    if sel == [] then []
    else
      var rest := RemoveId(sel[1..], id);
      assert Distinct(sel) ==> sel[0] !in sel[1..] && Distinct(sel[1..]) by {
        if Distinct(sel) {
          forall j | 0 <= j < |sel[1..]| ensures sel[1..][j] != sel[0] {
            assert sel[1..][j] == sel[j + 1];
          }
        }
      }
      (if sel[0] == id then [] else [sel[0]]) + rest
  }

  /** How one apply request ended: refused or failed, or accepted, followed by a queue fetch that
      returned the queue or failed. */
  datatype ApplyOutcome = ApplyFailed | ApplyAccepted(fetched: Option<seq<FeedbackItem>>)

  /** The list and the tab after the first `i` applies of "apply all". */
  function AfterApplies(items: seq<FeedbackItem>, tab: string, outs: seq<ApplyOutcome>, i: nat): (seq<FeedbackItem>, string)
    requires i <= |outs|
  {
    if i == 0 then (items, tab)
    else
      var (it, t) := AfterApplies(items, tab, outs, i - 1);
      match outs[i - 1]
      case ApplyFailed => (it, t)
      case ApplyAccepted(f) => (if f.Some? then f.value else it, AppliedTab)
  }

  /** When every apply fails, the list and the tab stay as they were. */
  lemma {:induction false} FailedAppliesChangeNothing(items: seq<FeedbackItem>, tab: string, outs: seq<ApplyOutcome>, i: nat)
    requires i <= |outs| && forall k :: 0 <= k < i ==> outs[k].ApplyFailed?
    ensures AfterApplies(items, tab, outs, i) == (items, tab)
  {
    if i > 0 {
      FailedAppliesChangeNothing(items, tab, outs, i - 1);
    }
  }

  /** Once one apply is accepted, the panel shows the applied tab. */
  lemma {:induction false} AcceptedApplyShowsApplied(items: seq<FeedbackItem>, tab: string, outs: seq<ApplyOutcome>, i: nat, k: nat)
    requires k < i <= |outs| && outs[k].ApplyAccepted?
    ensures AfterApplies(items, tab, outs, i).1 == AppliedTab
  {
    if k < i - 1 {
      AcceptedApplyShowsApplied(items, tab, outs, i - 1, k);
    }
  }

  /** How the DELETE request ended. */
  datatype DeleteOutcome = Deleted | Refused | Threw

  class QueuePanel {
    var activeTab: string
    var items: seq<FeedbackItem>
    var selected: seq<Option<string>>

    /** The panel starts on the open tab with nothing loaded or selected. */
    constructor ()
      ensures activeTab == OpenTab && items == [] && selected == []
    {
      activeTab := OpenTab;
      items := [];
      selected := [];
    }

    /** The list shown under the active tab. */
    function Shown(): seq<FeedbackItem>
      reads this
    {
      Filtered(items, activeTab)
    }

    /** `fetchQueue`: a successful fetch replaces the list; a failed one leaves it. */
    method Fetch(fetched: Option<seq<FeedbackItem>>)
      modifies this`items
      ensures fetched.Some? ==> items == fetched.value
      ensures fetched.None? ==> items == old(items)
    {
      if fetched.Some? {
        items := fetched.value;
      }
    }

    /** A checkbox change: checking adds the id to the selection, unchecking removes it. */
    method Check(id: Option<string>, checked: bool)
      modifies this`selected
      ensures checked ==> selected == AddId(old(selected), id)
      ensures !checked ==> selected == RemoveId(old(selected), id)
    {
      if checked {
        selected := AddId(selected, id);
      } else {
        selected := RemoveId(selected, id);
      }
    }

    /** `handleDeleteFeedback` up to its request: unless the user cancels, every item with that id
        leaves the list at once; the list before is returned for a rollback. */
    method DeleteStart(id: Option<string>, confirmed: bool) returns (previous: seq<FeedbackItem>)
      modifies this`items
      ensures previous == old(items)
      ensures confirmed ==> items == WithoutId(old(items), id)
      ensures !confirmed ==> items == old(items)
    {
      previous := items;
      if confirmed {
        items := WithoutId(items, id);
      }
    }

    /** The end of the delete request: a refusal or an exception restores the list from before. */
    method DeleteEnd(previous: seq<FeedbackItem>, outcome: DeleteOutcome)
      modifies this`items
      ensures outcome.Deleted? ==> items == old(items)
      ensures !outcome.Deleted? ==> items == previous
    {
      if !outcome.Deleted? {
        items := previous;
      }
    }

    /** A delete with nothing in between: the list loses exactly the items with that id when the
        server accepts, and is as before otherwise. */
    method Delete(id: Option<string>, confirmed: bool, outcome: DeleteOutcome)
      modifies this`items
      ensures confirmed && outcome.Deleted? ==> items == WithoutId(old(items), id)
      ensures !(confirmed && outcome.Deleted?) ==> items == old(items)
    {
      var previous := DeleteStart(id, confirmed);
      if confirmed {
        DeleteEnd(previous, outcome);
      }
    }

    /** `handleApplyFeedback`: after an accepted apply the queue is fetched again and the applied
        tab shown. */
    method ApplyOne(outcome: ApplyOutcome)
      modifies this`items, this`activeTab
      ensures (items, activeTab) == AfterApplies(old(items), old(activeTab), [outcome], 1)
    {
      if outcome.ApplyAccepted? {
        Fetch(outcome.fetched);
        activeTab := AppliedTab;
      }
    }

    /** `handleApplyAll`: the ids to apply, one request each in order (`outs` says how each ended),
        then the selection is cleared. */
    method ApplyAll(outs: seq<ApplyOutcome>) returns (ids: seq<Option<string>>)
      requires |outs| == |ApplyIds(items, selected)|
      modifies this`items, this`activeTab, this`selected
      ensures ids == ApplyIds(old(items), old(selected))
      ensures (items, activeTab) == AfterApplies(old(items), old(activeTab), outs, |outs|)
      ensures selected == []
    {
      ids := ApplyIds(items, selected);
      ghost var items0, tab0 := items, activeTab;
      for i := 0 to |ids|
        invariant (items, activeTab) == AfterApplies(items0, tab0, outs, i)
      {
        ApplyOne(outs[i]);
      }
      selected := [];
    }
  }
}
