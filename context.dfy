/**
 * The context filter of DiffViewModal.jsx: every entry within three positions of an added or
 * deleted entry is shown, and each maximal run of hidden entries is replaced by one ellipsis.
 * The result is empty while there is no diff to show or it is still loading.
 */
module ContextCollapse {
  import opened Wrappers
  import opened LineDiff

  /** How many entries around a change are shown. */
  const ContextLines := 3

  /** Some change among the first `upto` entries lies within the context of entry `k`. */
  predicate NearChangeBefore(raw: seq<DiffLine>, k: int, upto: int) {
    exists c :: 0 <= c < upto && c < |raw| && raw[c].IsChange() && k - ContextLines <= c <= k + ContextLines
  }

  /** Entry `k` lies within the context of a change. */
  predicate NearChange(raw: seq<DiffLine>, k: int) {
    NearChangeBefore(raw, k, |raw|)
  }

  /** The entries to show. */
  function Mask(raw: seq<DiffLine>): seq<bool> {
    seq(|raw|, k requires 0 <= k < |raw| => NearChange(raw, k))
  }

  /** The assembled output after the first `i` entries: a shown entry is copied; a hidden entry
      adds an ellipsis unless the entry before it was hidden too. */
  function Collapse(raw: seq<DiffLine>, m: seq<bool>, i: nat): seq<DiffLine>
    requires |m| == |raw| && i <= |raw|
  {
    if i == 0 then []
    else
      var r := Collapse(raw, m, i - 1);
      if m[i - 1] then r + [raw[i - 1]]
      else if i >= 2 && !m[i - 2] then r
      else r + [Ellipsis]
  }

  /** The shown entries among the first `i`, in order. */
  function Kept(raw: seq<DiffLine>, m: seq<bool>, i: nat): seq<DiffLine>
    requires |m| == |raw| && i <= |raw|
  {
    if i == 0 then [] else Kept(raw, m, i - 1) + (if m[i - 1] then [raw[i - 1]] else [])
  }

  /** The number of maximal runs of hidden entries among the first `i`. */
  function HiddenRuns(m: seq<bool>, i: nat): nat
    requires i <= |m|
  {
    if i == 0 then 0 else HiddenRuns(m, i - 1) + (if !m[i - 1] && (i == 1 || m[i - 2]) then 1 else 0)
  }

  /** The entries of an output other than the ellipses, in order. */
  function Shown(r: seq<DiffLine>): seq<DiffLine> {
    if r == [] then [] else Shown(r[..|r| - 1]) + (if r[|r| - 1].Ellipsis? then [] else [r[|r| - 1]])
  }

  lemma ShownSnoc(r: seq<DiffLine>, x: DiffLine)
    ensures Shown(r + [x]) == Shown(r) + (if x.Ellipsis? then [] else [x])
  {
    assert (r + [x])[..|r|] == r;
  }

  /** The output never holds two ellipses in a row, and ends in an ellipsis exactly when the last
      entry is hidden. */
  lemma {:induction false} CollapseNoAdjacentEllipses(raw: seq<DiffLine>, m: seq<bool>, i: nat)
    requires |m| == |raw| && i <= |raw|
    requires forall k :: 0 <= k < |raw| ==> !raw[k].Ellipsis?
    ensures var r := Collapse(raw, m, i);
      && (forall k :: 0 <= k < |r| - 1 ==> !(r[k].Ellipsis? && r[k + 1].Ellipsis?))
      && ((|r| > 0 && r[|r| - 1].Ellipsis?) <==> (i > 0 && !m[i - 1]))
  {
    if i > 0 {
      CollapseNoAdjacentEllipses(raw, m, i - 1);
    }
  }

  /** A shown entry is copied: it joins the shown entries and starts no hidden run. */
  lemma CollapseShownStep(raw: seq<DiffLine>, m: seq<bool>, i: nat)
    requires |m| == |raw| && 0 < i <= |raw| && !raw[i - 1].Ellipsis? && m[i - 1]
    requires Shown(Collapse(raw, m, i - 1)) == Kept(raw, m, i - 1)
    ensures Shown(Collapse(raw, m, i)) == Kept(raw, m, i)
  {
    var r := Collapse(raw, m, i - 1);
    assert Collapse(raw, m, i) == r + [raw[i - 1]];
    ShownSnoc(r, raw[i - 1]);
  }

  /** A hidden entry adds at most an ellipsis, which is not among the shown entries. */
  lemma CollapseHiddenStep(raw: seq<DiffLine>, m: seq<bool>, i: nat)
    requires |m| == |raw| && 0 < i <= |raw| && !m[i - 1]
    requires Shown(Collapse(raw, m, i - 1)) == Kept(raw, m, i - 1)
    ensures Shown(Collapse(raw, m, i)) == Kept(raw, m, i)
  {
    var r := Collapse(raw, m, i - 1);
    assert Kept(raw, m, i) == Kept(raw, m, i - 1) + [];
    if !(i >= 2 && !m[i - 2]) {
      assert Collapse(raw, m, i) == r + [Ellipsis];
      ShownSnoc(r, Ellipsis);
    }
  }

  /** One entry more: the counts of `CollapseCounts` carry over from `i - 1` entries to `i`. */
  lemma CollapseCountsStep(raw: seq<DiffLine>, m: seq<bool>, i: nat)
    requires |m| == |raw| && 0 < i <= |raw| && !raw[i - 1].Ellipsis?
    requires Shown(Collapse(raw, m, i - 1)) == Kept(raw, m, i - 1)
    requires |Collapse(raw, m, i - 1)| == |Kept(raw, m, i - 1)| + HiddenRuns(m, i - 1)
    ensures Shown(Collapse(raw, m, i)) == Kept(raw, m, i)
    ensures |Collapse(raw, m, i)| == |Kept(raw, m, i)| + HiddenRuns(m, i)
  {
    if m[i - 1] {
      CollapseShownStep(raw, m, i);
    } else {
      CollapseHiddenStep(raw, m, i);
    }
  }

  /** The output shows exactly the masked entries, in order, plus one ellipsis per maximal hidden
      run. */
  lemma {:induction false} CollapseCounts(raw: seq<DiffLine>, m: seq<bool>, i: nat)
    requires |m| == |raw| && i <= |raw|
    requires forall k :: 0 <= k < |raw| ==> !raw[k].Ellipsis?
    ensures var r := Collapse(raw, m, i);
      && Shown(r) == Kept(raw, m, i)
      && |r| == |Kept(raw, m, i)| + HiddenRuns(m, i)
  {
    if i > 0 {
      CollapseCounts(raw, m, i - 1);
      CollapseCountsStep(raw, m, i);
    }
  }

  /** Each entry is either shown or starts at most one hidden run, so the output is no longer than
      the entries it covers. */
  lemma {:induction false} KeptRunsBound(raw: seq<DiffLine>, m: seq<bool>, i: nat)
    requires |m| == |raw| && i <= |raw|
    ensures |Kept(raw, m, i)| + HiddenRuns(m, i) <= i
  {
    if i > 0 {
      KeptRunsBound(raw, m, i - 1);
    }
  }

  /** The shown entries are exactly the raw entries whose mask is set. */
  lemma {:induction false} KeptMembers(raw: seq<DiffLine>, m: seq<bool>, i: nat)
    requires |m| == |raw| && i <= |raw|
    ensures forall k :: 0 <= k < i && m[k] ==> raw[k] in Kept(raw, m, i)
    ensures forall x :: x in Kept(raw, m, i) ==> exists k :: 0 <= k < i && m[k] && raw[k] == x
  {
    if i > 0 {
      KeptMembers(raw, m, i - 1);
    }
  }

  /** The filtered view of a raw diff. */
  function ContextView(raw: seq<DiffLine>): seq<DiffLine> {
    Collapse(raw, Mask(raw), |raw|)
  }

  /** Every added or deleted entry is shown; an entry is shown only when it lies within three
      positions of a change; each maximal hidden run is one ellipsis, so no two ellipses are
      adjacent and the view is no longer than the raw diff. */
  lemma ContextViewShows(raw: seq<DiffLine>)
    requires forall k :: 0 <= k < |raw| ==> !raw[k].Ellipsis?
    ensures var r := ContextView(raw);
      && |r| <= |raw|
      && |r| == |Shown(r)| + HiddenRuns(Mask(raw), |raw|)
      && (forall k :: 0 <= k < |r| - 1 ==> !(r[k].Ellipsis? && r[k + 1].Ellipsis?))
      && (forall k :: 0 <= k < |raw| && raw[k].IsChange() ==> raw[k] in Shown(r))
      && (forall x :: x in Shown(r) ==> exists k :: 0 <= k < |raw| && raw[k] == x && NearChange(raw, k))
  {
    var m := Mask(raw);
    CollapseNoAdjacentEllipses(raw, m, |raw|);
    CollapseCounts(raw, m, |raw|);
    KeptRunsBound(raw, m, |raw|);
    KeptMembers(raw, m, |raw|);
    forall k | 0 <= k < |raw| && raw[k].IsChange()
      ensures m[k]
    {
      assert k - ContextLines <= k <= k + ContextLines;
    }
  }

  /** The texts the modal compares. */
  datatype DiffData = DiffData(current: string, previous: string)

  /** The diff the modal displays. */
  function DiffView(data: Option<DiffData>, isLoading: bool): (r: seq<DiffLine>)
    ensures data.None? || isLoading ==> r == []
  {
    if data.None? || isLoading then []
    else ContextView(DiffFrom(SplitLines(data.value.previous), SplitLines(data.value.current), 0, 0))
  }

  /** The displayed diff of two texts shows every line added or deleted, shows an unchanged line
      only within three entries of a change, stands for each hidden run by one ellipsis and never
      shows two ellipses in a row. */
  lemma DiffViewShows(d: DiffData)
    ensures var raw := DiffFrom(SplitLines(d.previous), SplitLines(d.current), 0, 0);
      var r := DiffView(Some(d), false);
      && |r| <= |raw|
      && |r| == |Shown(r)| + HiddenRuns(Mask(raw), |raw|)
      && (forall k :: 0 <= k < |r| - 1 ==> !(r[k].Ellipsis? && r[k + 1].Ellipsis?))
      && (forall k :: 0 <= k < |raw| && raw[k].IsChange() ==> raw[k] in Shown(r))
      && (forall x :: x in Shown(r) ==> exists k :: 0 <= k < |raw| && raw[k] == x && NearChange(raw, k))
  {
    DiffHasNoEllipsis(SplitLines(d.previous), SplitLines(d.current), 0, 0);
    ContextViewShows(DiffFrom(SplitLines(d.previous), SplitLines(d.current), 0, 0));
  }

  /** One more change seen by the marking loop. */
  lemma NearExtend(raw: seq<DiffLine>, i: nat, k: int)
    requires i < |raw|
    ensures NearChangeBefore(raw, k, i + 1) <==>
      NearChangeBefore(raw, k, i) || (raw[i].IsChange() && k - ContextLines <= i <= k + ContextLines)
  {
    if NearChangeBefore(raw, k, i + 1) && !NearChangeBefore(raw, k, i) {
      var c :| 0 <= c < i + 1 && c < |raw| && raw[c].IsChange() && k - ContextLines <= c <= k + ContextLines;
      assert c == i;
    }
  }

  /** The marking loop: every change sets the mask from three entries before it to three after
      it, clipped to the diff. */
  method ContextMask(raw: seq<DiffLine>) returns (mask: array<bool>)
    ensures fresh(mask) && mask.Length == |raw|
    ensures forall k :: 0 <= k < |raw| ==> mask[k] == NearChange(raw, k)
  {
    mask := new bool[|raw|](_ => false);
    for i := 0 to |raw|
      invariant forall k :: 0 <= k < |raw| ==> mask[k] == NearChangeBefore(raw, k, i)
    {
      forall k | 0 <= k < |raw|
        ensures NearChangeBefore(raw, k, i + 1) <==>
          NearChangeBefore(raw, k, i) || (raw[i].IsChange() && k - ContextLines <= i <= k + ContextLines)
      {
        NearExtend(raw, i, k);
      }
      if raw[i].IsChange() {
        var lo := if i >= ContextLines then i - ContextLines else 0;
        var hi := if i + ContextLines <= |raw| - 1 then i + ContextLines else |raw| - 1;
        for j := lo to hi + 1
          invariant forall k :: 0 <= k < |raw| ==> mask[k] == (NearChangeBefore(raw, k, i) || lo <= k < j)
        {
          mask[j] := true;
        }
      }
    }
  }

  /** The assembly loop, with the flag that remembers whether the last entry was hidden. */
  method Assemble(raw: seq<DiffLine>, mask: array<bool>) returns (result: seq<DiffLine>)
    requires mask.Length == |raw|
    ensures result == Collapse(raw, mask[..], |raw|)
  {
    result := [];
    var isLastHidden := false;
    for i := 0 to |raw|
      invariant result == Collapse(raw, mask[..], i)
      invariant isLastHidden == (i > 0 && !mask[i - 1])
    {
      if mask[i] {
        result := result + [raw[i]];
        isLastHidden := false;
      } else if !isLastHidden {
        result := result + [Ellipsis];
        isLastHidden := true;
      }
    }
  }

  /** The `useMemo` body: split, diff, mark and assemble. */
  method ComputeDiff(data: Option<DiffData>, isLoading: bool) returns (r: seq<DiffLine>)
    ensures r == DiffView(data, isLoading)
  {
    if data.None? || isLoading {
      return [];
    }
    var oldLines := SplitLines(data.value.previous);
    var newLines := SplitLines(data.value.current);
    var raw := RawDiff(oldLines, newLines);
    var mask := ContextMask(raw);
    r := Assemble(raw, mask);
    assert mask[..] == Mask(raw);
  }
}
