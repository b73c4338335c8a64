/**
 * The raw line diff of DiffViewModal.jsx: the previous and the current knowledge-base text are
 * split into lines, and two indices walk them. Equal lines are "unchanged"; otherwise a lookahead
 * of five lines first looks for the old line further on in the new text (the lines before it are
 * "added"), then for the new line further on in the old text (the lines before it are "deleted");
 * failing both, the two current lines become one "deleted" and one "added" entry.
 */
module LineDiff {

  /** One entry of the diff; line numbers start at 1. `Ellipsis` only appears once hidden runs
      are collapsed. */
  datatype DiffLine =
    | Unchanged(content: string, oldNum: nat, newNum: nat)
    | Added(content: string, newNum: nat)
    | Deleted(content: string, oldNum: nat)
    | Ellipsis
  {
    predicate IsChange() { Added? || Deleted? }
  }

  /** How far ahead a line is looked for. */
  const LookAhead := 5

  /** The six characters of the escape text ` `, which the display replaces by a space. */
  const EscapedNbsp := "\\u00A0"

  /** `cleanText`: every occurrence of the escape text, scanned from the left, becomes a space. */
  function CleanText(s: string): (r: string)
    ensures |r| <= |s|
    ensures '\\' !in s ==> r == s
    decreases |s|
  {
    if |s| >= |EscapedNbsp| && s[..|EscapedNbsp|] == EscapedNbsp then
      assert s[0] == '\\';
      " " + CleanText(s[|EscapedNbsp|..])
    else if s == [] then []
    else [s[0]] + CleanText(s[1..])
  }

  /** `split('\n')`: the lines between newlines; an empty text is one empty line. */
  function SplitLines(s: string): (r: seq<string>)
    ensures |r| >= 1
    ensures forall k :: 0 <= k < |r| ==> '\n' !in r[k]
    decreases |s|
  {
    if s == [] then [""]
    else
      var rest := SplitLines(s[1..]);
      if s[0] == '\n' then [""] + rest
      else [[s[0]] + rest[0]] + rest[1..]
  }

  /** The lines joined by newlines, the inverse of `SplitLines`. */
  function JoinLines(ls: seq<string>): string
    requires |ls| >= 1
  {
    if |ls| == 1 then ls[0] else ls[0] + "\n" + JoinLines(ls[1..])
  }

  /** Joining the lines of a text gives the text back. */
  lemma {:induction false} JoinSplit(s: string)
    ensures JoinLines(SplitLines(s)) == s
    decreases |s|
  {
    if s != [] {
      var rest := SplitLines(s[1..]);
      JoinSplit(s[1..]);
      if s[0] == '\n' {
        assert ([""] + rest)[1..] == rest;
      } else if |rest| > 1 {
        var ls := [[s[0]] + rest[0]] + rest[1..];
        assert ls[1..] == rest[1..];
        assert JoinLines(rest) == rest[0] + "\n" + JoinLines(rest[1..]);
        assert JoinLines(ls) == [s[0]] + (rest[0] + "\n" + JoinLines(rest[1..]));
        assert s == [s[0]] + s[1..];
      } else {
        assert s == [s[0]] + s[1..];
      }
    }
  }

  /** Splitting joined lines that hold no newline gives the lines back. */
  lemma {:induction false} SplitJoin(ls: seq<string>)
    requires |ls| >= 1 && forall k :: 0 <= k < |ls| ==> '\n' !in ls[k]
    ensures SplitLines(JoinLines(ls)) == ls
    decreases |ls|
  {
    if |ls| == 1 {
      SplitLine(ls[0]);
    } else {
      SplitJoin(ls[1..]);
      SplitLineThen(ls[0], JoinLines(ls[1..]));
      assert [ls[0]] + ls[1..] == ls;
    }
  }

  /** A text without a newline is one line. */
  lemma {:induction false} SplitLine(a: string)
    requires '\n' !in a
    ensures SplitLines(a) == [a]
    decreases |a|
  {
    if a != [] {
      SplitLine(a[1..]);
      assert [a[0]] + a[1..] == a;
    }
  }

  /** A line followed by a newline comes off the front of the split. */
  lemma {:induction false} SplitLineThen(a: string, t: string)
    requires '\n' !in a
    ensures SplitLines(a + "\n" + t) == [a] + SplitLines(t)
    decreases |a|
  {
    var s := a + "\n" + t;
    if a == [] {
      assert s[1..] == t;
    } else {
      assert s[1..] == a[1..] + "\n" + t;
      SplitLineThen(a[1..], t);
      assert [a[0]] + a[1..] == a;
    }
  }

  /** The first distance `i`, from `i` up to the lookahead, at which `line` appears again in
      `lines` after position `base`, or 0 when it does not appear within reach. */
  function FirstMatch(line: string, lines: seq<string>, base: nat, i: nat): (r: nat)
    requires 1 <= i <= LookAhead + 1
    ensures r == 0 || (i <= r <= LookAhead && base + r < |lines| && lines[base + r] == line)
    ensures r == 0 ==> forall j :: base + i <= j <= base + LookAhead && j < |lines| ==> lines[j] != line
    ensures r != 0 ==> forall j :: base + i <= j < base + r ==> lines[j] != line
    decreases LookAhead + 1 - i
  {
    if i > LookAhead || base + i >= |lines| then 0
    else if lines[base + i] == line then i
    else FirstMatch(line, lines, base, i + 1)
  }

  /** The entries for `k` new lines from position `n` on, all "added". */
  function AddedRun(lines: seq<string>, n: nat, k: nat): seq<DiffLine>
    requires n + k <= |lines|
    decreases k
  {
    if k == 0 then [] else [Added(CleanText(lines[n]), n + 1)] + AddedRun(lines, n + 1, k - 1)
  }

  /** The entries for `k` old lines from position `o` on, all "deleted". */
  function DeletedRun(lines: seq<string>, o: nat, k: nat): seq<DiffLine>
    requires o + k <= |lines|
    decreases k
  {
    if k == 0 then [] else [Deleted(CleanText(lines[o]), o + 1)] + DeletedRun(lines, o + 1, k - 1)
  }

  /** Which branch a pass of the diff loop takes at indices `o` and `n`. */
  datatype Move = Same | AddedAhead(a: nat) | DeletedAhead(d: nat) | Fallback

  /** The branch of the pass: equal lines, else the added lookahead, else the deleted lookahead,
      else the fallback. */
  function NextMove(oldLines: seq<string>, newLines: seq<string>, o: nat, n: nat): (m: Move)
    requires o <= |oldLines| && n <= |newLines|
    ensures m.Same? ==> o < |oldLines| && n < |newLines| && oldLines[o] == newLines[n]
    ensures m.AddedAhead? ==> o < |oldLines| && 0 < m.a && n + m.a < |newLines|
    ensures m.DeletedAhead? ==> n < |newLines| && 0 < m.d && o + m.d < |oldLines|
  {
    if o < |oldLines| && n < |newLines| && oldLines[o] == newLines[n] then Same
    else
      var a := if o < |oldLines| then FirstMatch(oldLines[o], newLines, n, 1) else 0;
      if a > 0 then AddedAhead(a)
      else
        var d := if n < |newLines| then FirstMatch(newLines[n], oldLines, o, 1) else 0;
        if d > 0 then DeletedAhead(d) else Fallback
  }

  /** The entries of the fallback pass: the old line as deleted and the new line as added, for
      those still present. */
  function FallbackEntries(oldLines: seq<string>, newLines: seq<string>, o: nat, n: nat): seq<DiffLine>
    requires o <= |oldLines| && n <= |newLines|
  {
    (if o < |oldLines| then [Deleted(CleanText(oldLines[o]), o + 1)] else [])
    + (if n < |newLines| then [Added(CleanText(newLines[n]), n + 1)] else [])
  }

  /** A branch that can be taken at indices `o` and `n`. */
  predicate MoveFits(oldLines: seq<string>, newLines: seq<string>, o: nat, n: nat, m: Move) {
    && o <= |oldLines| && n <= |newLines| && (o < |oldLines| || n < |newLines|)
    && (m.Same? ==> o < |oldLines| && n < |newLines| && oldLines[o] == newLines[n])
    && (m.AddedAhead? ==> 0 < m.a && n + m.a <= |newLines|)
    && (m.DeletedAhead? ==> 0 < m.d && o + m.d <= |oldLines|)
  }

  /** What the branch `m` pushes, and the indices it leaves. */
  function Apply(oldLines: seq<string>, newLines: seq<string>, o: nat, n: nat, m: Move): (r: (seq<DiffLine>, nat, nat))
    requires MoveFits(oldLines, newLines, o, n, m)
    ensures o <= r.1 <= |oldLines| && n <= r.2 <= |newLines| && o + n < r.1 + r.2
  {
    match m
    case Same => ([Unchanged(CleanText(oldLines[o]), o + 1, n + 1)], o + 1, n + 1)
    case AddedAhead(a) => (AddedRun(newLines, n, a), o, n + a)
    case DeletedAhead(d) => (DeletedRun(oldLines, o, d), o + d, n)
    case Fallback =>
      (FallbackEntries(oldLines, newLines, o, n),
       if o < |oldLines| then o + 1 else o,
       if n < |newLines| then n + 1 else n)
  }

  /** One pass of the diff loop at indices `o` and `n`: the entries it pushes and the indices it
      leaves. Every pass moves at least one index forward, so the loop ends. */
  function DiffStep(oldLines: seq<string>, newLines: seq<string>, o: nat, n: nat): (r: (seq<DiffLine>, nat, nat))
    requires o <= |oldLines| && n <= |newLines| && (o < |oldLines| || n < |newLines|)
    ensures o <= r.1 <= |oldLines| && n <= r.2 <= |newLines| && o + n < r.1 + r.2
  {
    Apply(oldLines, newLines, o, n, NextMove(oldLines, newLines, o, n))
  }

  /** The diff of the lines from `o` and `n` on. */
  function DiffFrom(oldLines: seq<string>, newLines: seq<string>, o: nat, n: nat): seq<DiffLine>
    requires o <= |oldLines| && n <= |newLines|
    decreases |oldLines| - o + |newLines| - n
  {
    if o == |oldLines| && n == |newLines| then []
    else
      var st := DiffStep(oldLines, newLines, o, n);
      st.0 + DiffFrom(oldLines, newLines, st.1, st.2)
  }

  /** A line of one side of the diff: its number and its displayed content. */
  datatype SideLine = SideLine(num: nat, content: string)

  /** The lines of a text from position `from` on, numbered from 1 and cleaned for display. */
  function Side(lines: seq<string>, from: nat): seq<SideLine>
    decreases |lines| - from
  {
    if from >= |lines| then [] else [SideLine(from + 1, CleanText(lines[from]))] + Side(lines, from + 1)
  }

  /** The old side of a diff: its unchanged and deleted entries, in order. */
  function OldSide(d: seq<DiffLine>): seq<SideLine> {
    if d == [] then []
    else (if d[0].Unchanged? || d[0].Deleted? then [SideLine(d[0].oldNum, d[0].content)] else []) + OldSide(d[1..])
  }

  /** The new side of a diff: its unchanged and added entries, in order. */
  function NewSide(d: seq<DiffLine>): seq<SideLine> {
    if d == [] then []
    else (if d[0].Unchanged? || d[0].Added? then [SideLine(d[0].newNum, d[0].content)] else []) + NewSide(d[1..])
  }

  /** The side of a text runs 1.. in order over the cleaned lines. */
  lemma {:induction false} SideNumbered(lines: seq<string>, from: nat)
    requires from <= |lines|
    ensures |Side(lines, from)| == |lines| - from
    ensures forall j :: 0 <= j < |lines| - from ==> Side(lines, from)[j] == SideLine(from + j + 1, CleanText(lines[from + j]))
    decreases |lines| - from
  {
    if from < |lines| {
      SideNumbered(lines, from + 1);
      var rest := Side(lines, from + 1);
      assert Side(lines, from) == [SideLine(from + 1, CleanText(lines[from]))] + rest;
      forall j | 0 < j < |lines| - from
        ensures Side(lines, from)[j] == SideLine(from + j + 1, CleanText(lines[from + j]))
      {
        assert Side(lines, from)[j] == rest[j - 1];
      }
    }
  }

  lemma {:induction false} SidesAppend(a: seq<DiffLine>, b: seq<DiffLine>)
    ensures OldSide(a + b) == OldSide(a) + OldSide(b)
    ensures NewSide(a + b) == NewSide(a) + NewSide(b)
    decreases |a|
  {
    if a != [] {
      assert (a + b)[0] == a[0] && (a + b)[1..] == a[1..] + b;
      SidesAppend(a[1..], b);
      var h := if a[0].Unchanged? || a[0].Deleted? then [SideLine(a[0].oldNum, a[0].content)] else [];
      assert OldSide(a + b) == h + (OldSide(a[1..]) + OldSide(b));
      var h' := if a[0].Unchanged? || a[0].Added? then [SideLine(a[0].newNum, a[0].content)] else [];
      assert NewSide(a + b) == h' + (NewSide(a[1..]) + NewSide(b));
    } else {
      assert a + b == b;
    }
  }

  lemma {:induction false} AddedRunSides(lines: seq<string>, n: nat, k: nat)
    requires n + k <= |lines|
    ensures OldSide(AddedRun(lines, n, k)) == []
    ensures NewSide(AddedRun(lines, n, k)) + Side(lines, n + k) == Side(lines, n)
    decreases k
  {
    if k > 0 {
      AddedRunSides(lines, n + 1, k - 1);
    }
  }

  lemma {:induction false} DeletedRunSides(lines: seq<string>, o: nat, k: nat)
    requires o + k <= |lines|
    ensures NewSide(DeletedRun(lines, o, k)) == []
    ensures OldSide(DeletedRun(lines, o, k)) + Side(lines, o + k) == Side(lines, o)
    decreases k
  {
    if k > 0 {
      DeletedRunSides(lines, o + 1, k - 1);
    }
  }

  /** The sides of a single entry. */
  lemma SingleSides(e: DiffLine)
    ensures OldSide([e]) == if e.Unchanged? || e.Deleted? then [SideLine(e.oldNum, e.content)] else []
    ensures NewSide([e]) == if e.Unchanged? || e.Added? then [SideLine(e.newNum, e.content)] else []
  {
    assert [e][1..] == [];
  }

  /** One deleted line is one line of the old side. */
  lemma OneDeletedSides(lines: seq<string>, o: nat)
    requires o < |lines|
    ensures var x := [Deleted(CleanText(lines[o]), o + 1)];
      OldSide(x) + Side(lines, o + 1) == Side(lines, o) && NewSide(x) == []
  {
    SingleSides(Deleted(CleanText(lines[o]), o + 1));
  }

  /** One added line is one line of the new side. */
  lemma OneAddedSides(lines: seq<string>, n: nat)
    requires n < |lines|
    ensures var y := [Added(CleanText(lines[n]), n + 1)];
      NewSide(y) + Side(lines, n + 1) == Side(lines, n) && OldSide(y) == []
  {
    SingleSides(Added(CleanText(lines[n]), n + 1));
  }

  /** The fallback pass moves past the lines it pushes. */
  lemma FallbackSides(oldLines: seq<string>, newLines: seq<string>, o: nat, n: nat)
    requires o <= |oldLines| && n <= |newLines|
    ensures OldSide(FallbackEntries(oldLines, newLines, o, n)) + Side(oldLines, if o < |oldLines| then o + 1 else o) == Side(oldLines, o)
    ensures NewSide(FallbackEntries(oldLines, newLines, o, n)) + Side(newLines, if n < |newLines| then n + 1 else n) == Side(newLines, n)
  {
    var x: seq<DiffLine> := if o < |oldLines| then [Deleted(CleanText(oldLines[o]), o + 1)] else [];
    var y: seq<DiffLine> := if n < |newLines| then [Added(CleanText(newLines[n]), n + 1)] else [];
    assert FallbackEntries(oldLines, newLines, o, n) == x + y;
    SidesAppend(x, y);
    FallbackOldSide(oldLines, o, x, y);
    FallbackNewSide(newLines, n, x, y);
  }

  /** The old side of the fallback pass: the deleted line, if any. */
  lemma FallbackOldSide(oldLines: seq<string>, o: nat, x: seq<DiffLine>, y: seq<DiffLine>)
    requires o <= |oldLines|
    requires x == if o < |oldLines| then [Deleted(CleanText(oldLines[o]), o + 1)] else []
    requires y == [] || (|y| == 1 && y[0].Added?)
    ensures OldSide(x) + OldSide(y) + Side(oldLines, if o < |oldLines| then o + 1 else o) == Side(oldLines, o)
  {
    if y != [] {
      assert y == [y[0]];
      SingleSides(y[0]);
    }
    if o < |oldLines| {
      OneDeletedSides(oldLines, o);
    }
  }

  /** The new side of the fallback pass: the added line, if any. */
  lemma FallbackNewSide(newLines: seq<string>, n: nat, x: seq<DiffLine>, y: seq<DiffLine>)
    requires n <= |newLines|
    requires y == if n < |newLines| then [Added(CleanText(newLines[n]), n + 1)] else []
    requires x == [] || (|x| == 1 && x[0].Deleted?)
    ensures NewSide(x) + NewSide(y) + Side(newLines, if n < |newLines| then n + 1 else n) == Side(newLines, n)
  {
    if x != [] {
      assert x == [x[0]];
      SingleSides(x[0]);
    }
    if n < |newLines| {
      OneAddedSides(newLines, n);
    }
  }

  /** What a branch pushes is exactly the old lines and the new lines it moves past. */
  lemma ApplySides(oldLines: seq<string>, newLines: seq<string>, o: nat, n: nat, m: Move)
    requires MoveFits(oldLines, newLines, o, n, m)
    ensures var st := Apply(oldLines, newLines, o, n, m);
      && OldSide(st.0) + Side(oldLines, st.1) == Side(oldLines, o)
      && NewSide(st.0) + Side(newLines, st.2) == Side(newLines, n)
  {
    match m
    case Same =>
      var e := Unchanged(CleanText(oldLines[o]), o + 1, n + 1);
      assert OldSide([e]) == [SideLine(o + 1, e.content)] + OldSide([]);
      assert NewSide([e]) == [SideLine(n + 1, e.content)] + NewSide([]);
      assert Side(oldLines, o) == [SideLine(o + 1, e.content)] + Side(oldLines, o + 1);
      assert Side(newLines, n) == [SideLine(n + 1, CleanText(newLines[n]))] + Side(newLines, n + 1);
    case AddedAhead(a) => AddedRunSides(newLines, n, a);
    case DeletedAhead(d) => DeletedRunSides(oldLines, o, d);
    case Fallback => FallbackSides(oldLines, newLines, o, n);
  }

  /** The diff is the first pass's entries followed by the diff from where that pass left off. */
  lemma DiffUnfold(oldLines: seq<string>, newLines: seq<string>, o: nat, n: nat)
    requires o <= |oldLines| && n <= |newLines| && (o < |oldLines| || n < |newLines|)
    ensures var st := DiffStep(oldLines, newLines, o, n);
      DiffFrom(oldLines, newLines, o, n) == st.0 + DiffFrom(oldLines, newLines, st.1, st.2)
  {
  }

  /** The diff after a pass that takes the branch `m`. */
  lemma MoveUnfold(oldLines: seq<string>, newLines: seq<string>, o: nat, n: nat, m: Move)
    requires o <= |oldLines| && n <= |newLines| && (o < |oldLines| || n < |newLines|)
    requires NextMove(oldLines, newLines, o, n) == m
    ensures var st := Apply(oldLines, newLines, o, n, m);
      DiffFrom(oldLines, newLines, o, n) == st.0 + DiffFrom(oldLines, newLines, st.1, st.2)
  {
    DiffUnfold(oldLines, newLines, o, n);
  }

  /** Reading the unchanged and deleted entries gives back the old lines, and reading the unchanged
      and added entries gives back the new lines, each numbered from 1 in order (modulo
      `CleanText`). */
  lemma {:induction false} DiffReconstructs(oldLines: seq<string>, newLines: seq<string>, o: nat, n: nat)
    requires o <= |oldLines| && n <= |newLines|
    ensures OldSide(DiffFrom(oldLines, newLines, o, n)) == Side(oldLines, o)
    ensures NewSide(DiffFrom(oldLines, newLines, o, n)) == Side(newLines, n)
    decreases |oldLines| - o + |newLines| - n
  {
    if o < |oldLines| || n < |newLines| {
      var st := DiffStep(oldLines, newLines, o, n);
      ApplySides(oldLines, newLines, o, n, NextMove(oldLines, newLines, o, n));
      DiffReconstructs(oldLines, newLines, st.1, st.2);
      SidesAppend(st.0, DiffFrom(oldLines, newLines, st.1, st.2));
    }
  }

  lemma {:induction false} RunsAreChanges(lines: seq<string>, n: nat, k: nat)
    requires n + k <= |lines|
    ensures |AddedRun(lines, n, k)| == |DeletedRun(lines, n, k)| == k
    ensures forall j :: 0 <= j < k ==> AddedRun(lines, n, k)[j].Added?
    ensures forall j :: 0 <= j < k ==> DeletedRun(lines, n, k)[j].Deleted?
    decreases k
  {
    if k > 0 {
      RunsAreChanges(lines, n + 1, k - 1);
    }
  }

  /** The raw diff holds no ellipsis. */
  lemma {:induction false} DiffHasNoEllipsis(oldLines: seq<string>, newLines: seq<string>, o: nat, n: nat)
    requires o <= |oldLines| && n <= |newLines|
    ensures forall k :: 0 <= k < |DiffFrom(oldLines, newLines, o, n)| ==> !DiffFrom(oldLines, newLines, o, n)[k].Ellipsis?
    decreases |oldLines| - o + |newLines| - n
  {
    if o < |oldLines| || n < |newLines| {
      var m := NextMove(oldLines, newLines, o, n);
      var st := DiffStep(oldLines, newLines, o, n);
      DiffUnfold(oldLines, newLines, o, n);
      DiffHasNoEllipsis(oldLines, newLines, st.1, st.2);
      match m
      case AddedAhead(a) => RunsAreChanges(newLines, n, a);
      case DeletedAhead(d) => RunsAreChanges(oldLines, o, d);
      case _ =>
    }
  }

  /** Identical texts give only unchanged entries. */
  lemma {:induction false} IdenticalUnchanged(lines: seq<string>, o: nat)
    requires o <= |lines|
    ensures forall k :: 0 <= k < |DiffFrom(lines, lines, o, o)| ==> DiffFrom(lines, lines, o, o)[k].Unchanged?
    decreases |lines| - o
  {
    if o < |lines| {
      IdenticalUnchanged(lines, o + 1);
    }
  }

  /** When the old line reappears within the next five new lines, the pass emits only "added"
      entries, up to its first reappearance, even when the new line also reappears in the old
      text. */
  lemma AddedFirst(oldLines: seq<string>, newLines: seq<string>, o: nat, n: nat, i: nat)
    requires o < |oldLines| && n < |newLines| && oldLines[o] != newLines[n]
    requires 1 <= i <= LookAhead && n + i < |newLines| && newLines[n + i] == oldLines[o]
    ensures var a := FirstMatch(oldLines[o], newLines, n, 1);
      && 1 <= a <= i && n + a < |newLines| && newLines[n + a] == oldLines[o]
      && DiffFrom(oldLines, newLines, o, n) == AddedRun(newLines, n, a) + DiffFrom(oldLines, newLines, o, n + a)
  {
    var a := FirstMatch(oldLines[o], newLines, n, 1);
    assert a != 0 && a <= i;
    assert 1 <= a <= i && n + a < |newLines| && newLines[n + a] == oldLines[o];
    assert NextMove(oldLines, newLines, o, n) == AddedAhead(a);
    MoveUnfold(oldLines, newLines, o, n, AddedAhead(a));
  }

  /** Without a reappearance of the old line, a reappearance of the new line within the next five
      old lines makes the pass emit only "deleted" entries. */
  lemma DeletedSecond(oldLines: seq<string>, newLines: seq<string>, o: nat, n: nat, i: nat)
    requires o < |oldLines| && n < |newLines| && oldLines[o] != newLines[n]
    requires forall j :: n < j <= n + LookAhead && j < |newLines| ==> newLines[j] != oldLines[o]
    requires 1 <= i <= LookAhead && o + i < |oldLines| && oldLines[o + i] == newLines[n]
    ensures var d := FirstMatch(newLines[n], oldLines, o, 1);
      && 1 <= d <= i && o + d < |oldLines| && oldLines[o + d] == newLines[n]
      && DiffFrom(oldLines, newLines, o, n) == DeletedRun(oldLines, o, d) + DiffFrom(oldLines, newLines, o + d, n)
  {
    var d := FirstMatch(newLines[n], oldLines, o, 1);
    assert FirstMatch(oldLines[o], newLines, n, 1) == 0;
    assert d != 0 && d <= i;
    assert 1 <= d <= i && o + d < |oldLines| && oldLines[o + d] == newLines[n];
    assert NextMove(oldLines, newLines, o, n) == DeletedAhead(d);
    MoveUnfold(oldLines, newLines, o, n, DeletedAhead(d));
  }

  /** The lookahead loop: the first distance within reach at which `line` reappears, or 0. */
  method FindAhead(line: string, lines: seq<string>, base: nat) returns (i: nat)
    ensures i == FirstMatch(line, lines, base, 1)
  {
    var k := 1;
    while k <= LookAhead && base + k < |lines|
      invariant 1 <= k <= LookAhead + 1
      invariant FirstMatch(line, lines, base, 1) == FirstMatch(line, lines, base, k)
    {
      if lines[base + k] == line {
        return k;
      }
      k := k + 1;
    }
    return 0;
  }

  /** The push loop for `k` added lines. */
  method PushAdded(raw: seq<DiffLine>, lines: seq<string>, n: nat, k: nat) returns (raw': seq<DiffLine>)
    requires n + k <= |lines|
    ensures raw' == raw + AddedRun(lines, n, k)
  {
    raw' := raw;
    for j := 0 to k
      invariant raw' + AddedRun(lines, n + j, k - j) == raw + AddedRun(lines, n, k)
    {
      var e := Added(CleanText(lines[n + j]), n + j + 1);
      assert AddedRun(lines, n + j, k - j) == [e] + AddedRun(lines, n + j + 1, k - j - 1);
      raw' := raw' + [e];
    }
  }

  /** The push loop for `k` deleted lines. */
  method PushDeleted(raw: seq<DiffLine>, lines: seq<string>, o: nat, k: nat) returns (raw': seq<DiffLine>)
    requires o + k <= |lines|
    ensures raw' == raw + DeletedRun(lines, o, k)
  {
    raw' := raw;
    for j := 0 to k
      invariant raw' + DeletedRun(lines, o + j, k - j) == raw + DeletedRun(lines, o, k)
    {
      var e := Deleted(CleanText(lines[o + j]), o + j + 1);
      assert DeletedRun(lines, o + j, k - j) == [e] + DeletedRun(lines, o + j + 1, k - j - 1);
      raw' := raw' + [e];
    }
  }

  /** One pass of the diff loop: it pushes the pass's entries and moves the indices on. */
  method Pass(raw: seq<DiffLine>, oldLines: seq<string>, newLines: seq<string>, o: nat, n: nat)
    returns (raw': seq<DiffLine>, o': nat, n': nat)
    requires o <= |oldLines| && n <= |newLines| && (o < |oldLines| || n < |newLines|)
    ensures var st := DiffStep(oldLines, newLines, o, n);
      raw' == raw + st.0 && o' == st.1 && n' == st.2
  {
    ghost var m := NextMove(oldLines, newLines, o, n);
    raw', o', n' := raw, o, n;
    if o < |oldLines| && n < |newLines| && oldLines[o] == newLines[n] {
      assert m == Same;
      raw' := raw + [Unchanged(CleanText(oldLines[o]), o + 1, n + 1)];
      o', n' := o + 1, n + 1;
    } else {
      var a := 0;
      if o < |oldLines| {
        a := FindAhead(oldLines[o], newLines, n);
      }
      if a > 0 {
        assert m == AddedAhead(a);
        raw' := PushAdded(raw, newLines, n, a);
        n' := n + a;
      } else {
        var d := 0;
        if n < |newLines| {
          d := FindAhead(newLines[n], oldLines, o);
        }
        if d > 0 {
          assert m == DeletedAhead(d);
          raw' := PushDeleted(raw, oldLines, o, d);
          o' := o + d;
        } else {
          assert m == Fallback;
          if o < |oldLines| {
            raw' := raw' + [Deleted(CleanText(oldLines[o]), o + 1)];
            o' := o + 1;
          }
          if n < |newLines| {
            raw' := raw' + [Added(CleanText(newLines[n]), n + 1)];
            n' := n + 1;
          }
        }
      }
    }
  }

  /** After a pass, what is pushed plus the diff still to come is what it was before the pass. */
  lemma PassKeepsRest(oldLines: seq<string>, newLines: seq<string>, raw: seq<DiffLine>, o: nat, n: nat,
                      raw': seq<DiffLine>, o': nat, n': nat)
    requires o <= |oldLines| && n <= |newLines| && (o < |oldLines| || n < |newLines|)
    requires var st := DiffStep(oldLines, newLines, o, n);
      raw' == raw + st.0 && o' == st.1 && n' == st.2
    ensures o' <= |oldLines| && n' <= |newLines| && o + n < o' + n'
    ensures raw' + DiffFrom(oldLines, newLines, o', n') == raw + DiffFrom(oldLines, newLines, o, n)
  {
    var st := DiffStep(oldLines, newLines, o, n);
    DiffUnfold(oldLines, newLines, o, n);
    Rebase(raw, st.0, DiffFrom(oldLines, newLines, o', n'));
  }

  /** Moving the pass's entries from the diff still to come to the pushed entries. */
  lemma Rebase(raw: seq<DiffLine>, step: seq<DiffLine>, rest: seq<DiffLine>)
    ensures (raw + step) + rest == raw + (step + rest)
  {
  }

  /** The diff loop of the modal. */
  method RawDiff(oldLines: seq<string>, newLines: seq<string>) returns (raw: seq<DiffLine>)
    ensures raw == DiffFrom(oldLines, newLines, 0, 0)
  {
    var o: nat, n: nat := 0, 0;
    raw := [];
    while o < |oldLines| || n < |newLines|
      invariant o <= |oldLines| && n <= |newLines|
      invariant raw + DiffFrom(oldLines, newLines, o, n) == DiffFrom(oldLines, newLines, 0, 0)
      decreases |oldLines| - o + |newLines| - n
    {
      var raw', o', n' := Pass(raw, oldLines, newLines, o, n);
      PassKeepsRest(oldLines, newLines, raw, o, n, raw', o', n');
      raw, o, n := raw', o', n';
    }
  }
}
