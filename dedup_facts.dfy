/**
 * What a whole deduplication walk computes: the facts of `Dedup.Inv` hold
 * after every step, and from them the properties of the list
 * `removeDuplicatesConstraints` returns.
 */
module DedupFacts {
  import opened Wrappers
  import opened JavaText
  import opened Descriptors
  import Naming
  import opened DedupWalk

  /** Step `i` of the walk leads from the state after `i` steps to the state after `i + 1`. */
  lemma RunToStep(cs0: seq<Constraint>, fmt: Formatter, i: nat)
    requires i < |cs0|
    ensures RunTo(cs0, i + 1, fmt) == Step(RunTo(cs0, i, fmt), i, fmt)
  {
  }

  lemma RunStartsInv(cs0: seq<Constraint>, fmt: Formatter)
    ensures Inv(cs0, fmt, RunTo(cs0, 0, fmt), 0)
  {
    assert RunTo(cs0, 0, fmt) == Pass(cs0, []);
  }

  /** The facts hold after every number of steps. */
  lemma {:induction false} RunKeepsInv(cs0: seq<Constraint>, fmt: Formatter, n: nat)
    requires n <= |cs0|
    ensures Inv(cs0, fmt, RunTo(cs0, n, fmt), n)
  {
    if n == 0 {
      RunStartsInv(cs0, fmt);
    } else {
      var i := n - 1;
      RunKeepsInv(cs0, fmt, i);
      RunToStep(cs0, fmt, i);
      StepKeepsInv(cs0, fmt, RunTo(cs0, i, fmt), i, n, RunTo(cs0, n, fmt));
    }
  }

  // ---------------------------------------------------------------------------
  // what a whole walk computes
  // ---------------------------------------------------------------------------

  /** One of the two column lists a merge extends. */
  function Columns(c: Constraint, ref: bool): JString {
    if ref then c.refColumn else c.column
  }

  /** The formatted column lists of the repeats, in order. */
  function FormattedColumns(reps: seq<Constraint>, ref: bool, fmt: Formatter): (r: seq<string>)
    requires forall j :: 0 <= j < |reps| ==> Columns(reps[j], ref).Some?
    ensures |r| == |reps|
  {
    if reps == [] then []
    else FormattedColumns(reps[..|reps| - 1], ref, fmt) + [fmt.formatObject(Columns(reps[|reps| - 1], ref).value)]
  }

  /** Every merge raises the column count by one and keeps the name. */
  lemma {:induction false} FoldMergeCount(origin: Constraint, reps: seq<Constraint>, fmt: Formatter)
    ensures var r := FoldMerge(origin, reps, fmt);
            r.countCols == origin.countCols + |reps| && r.name == origin.name &&
            r.generatedName == origin.generatedName && r.typeName == origin.typeName && r.kind == origin.kind
  {
    if reps != [] {
      FoldMergeCount(origin, reps[..|reps| - 1], fmt);
    }
  }

  /**
   * Folding repeats that all carry columns into a one-column constraint gives
   * the formatted first column and the formatted repeat columns, joined by
   * commas.
   */
  lemma {:induction false} FoldMergeColumns(origin: Constraint, reps: seq<Constraint>, ref: bool, fmt: Formatter)
    requires origin.countCols == 1 && |reps| > 0
    requires forall j :: 0 <= j < |reps| ==> Columns(reps[j], ref).Some?
    ensures Columns(FoldMerge(origin, reps, fmt), ref) ==
            Some(Join(",", [Show(fmt.ObjectOrNull(Columns(origin, ref)))] + FormattedColumns(reps, ref, fmt)))
  {
    var front := reps[..|reps| - 1];
    var last := reps[|reps| - 1];
    var first := Show(fmt.ObjectOrNull(Columns(origin, ref)));
    if front == [] {
      assert FoldMerge(origin, reps, fmt) == Merge(origin, last, fmt);
      assert FormattedColumns(reps, ref, fmt) == [fmt.formatObject(Columns(last, ref).value)];
    } else {
      FoldMergeColumns(origin, front, ref, fmt);
      FoldMergeCount(origin, front, fmt);
      var parts := [first] + FormattedColumns(front, ref, fmt);
      JoinSnoc(",", parts, fmt.formatObject(Columns(last, ref).value));
      assert parts + [fmt.formatObject(Columns(last, ref).value)] == [first] + FormattedColumns(reps, ref, fmt);
    }
  }

  /** The facts of the invariant, read at the end of the walk. */
  lemma DedupInv(cs0: seq<Constraint>, fmt: Formatter)
    ensures Inv(cs0, fmt, Dedup(cs0, fmt), |cs0|)
  {
    RunKeepsInv(cs0, fmt, |cs0|);
  }

  /** No two constraints returned share a name. */
  lemma DedupNamesDistinct(cs0: seq<Constraint>, fmt: Formatter)
    ensures var out := Output(Dedup(cs0, fmt));
            forall a, b :: 0 <= a < b < |out| ==> out[a].name != out[b].name
  {
    DedupInv(cs0, fmt);
  }

  /**
   * A position is returned exactly when no earlier constraint carries its
   * (possibly generated) name; the returned constraints keep list order.
   */
  lemma DedupKeepsFirstOccurrences(cs0: seq<Constraint>, fmt: Formatter)
    ensures var p := Dedup(cs0, fmt);
            forall i :: 0 <= i < |cs0| ==>
              (i in p.kept <==> forall j :: 0 <= j < i ==> p.cs[j].name != p.cs[i].name)
    ensures Increasing(Dedup(cs0, fmt).kept)
  {
    DedupInv(cs0, fmt);
    InvFirstOccurrences(cs0, fmt, Dedup(cs0, fmt));
  }

  lemma InvFirstOccurrences(cs0: seq<Constraint>, fmt: Formatter, p: Pass)
    requires Inv(cs0, fmt, p, |cs0|)
    ensures forall i :: 0 <= i < |cs0| ==>
              (i in p.kept <==> forall j :: 0 <= j < i ==> p.cs[j].name != p.cs[i].name)
  {
    forall i | 0 <= i < |cs0|
      ensures i in p.kept <==> forall j :: 0 <= j < i ==> p.cs[j].name != p.cs[i].name
    {
      if i in p.kept {
        var a :| 0 <= a < |p.kept| && p.kept[a] == i;
        forall j | 0 <= j < i
          ensures p.cs[j].name != p.cs[i].name
        {
          assert CoveredAt(p, j);
          var b :| 0 <= b < |p.kept| && p.kept[b] <= j && p.cs[p.kept[b]].name == p.cs[j].name;
          assert b != a;
        }
      } else {
        assert CoveredAt(p, i);
        var a :| 0 <= a < |p.kept| && p.kept[a] <= i && p.cs[p.kept[a]].name == p.cs[i].name;
        assert p.kept[a] != i;
      }
    }
  }

  /** Every name in the list is the name of a returned constraint. */
  lemma DedupCoversNames(cs0: seq<Constraint>, fmt: Formatter)
    ensures var p := Dedup(cs0, fmt);
            forall i :: 0 <= i < |cs0| ==> p.cs[i].name in Names(Output(p))
  {
    DedupInv(cs0, fmt);
    InvCoversNames(cs0, fmt, Dedup(cs0, fmt));
  }

  lemma InvCoversNames(cs0: seq<Constraint>, fmt: Formatter, p: Pass)
    requires Inv(cs0, fmt, p, |cs0|)
    ensures forall i :: 0 <= i < |cs0| ==> p.cs[i].name in Names(Output(p))
  {
    var out := Output(p);
    forall i | 0 <= i < |cs0|
      ensures p.cs[i].name in Names(out)
    {
      assert CoveredAt(p, i);
      var a :| 0 <= a < |p.kept| && p.kept[a] <= i && p.cs[p.kept[a]].name == p.cs[i].name;
      assert Names(out)[a] == p.cs[i].name;
    }
  }

  /**
   * Each returned constraint is its first occurrence (under its final name)
   * with every later constraint of that name folded in, in list order.
   */
  lemma DedupFolds(cs0: seq<Constraint>, fmt: Formatter, p: Pass, k: nat)
    requires p == Dedup(cs0, fmt) && k in p.kept
    ensures p.cs[k] == FoldMerge(Base(cs0[k], p.cs[k]), Later(p.cs, p.cs[k].name, k + 1, |cs0|), fmt)
  {
    DedupFolded(cs0, fmt);
    FoldedFolds(cs0, fmt, p, k);
  }

  /** The folding fact of the invariant alone, at the end of the walk. */
  lemma DedupFolded(cs0: seq<Constraint>, fmt: Formatter)
    ensures Folded(cs0, fmt, Dedup(cs0, fmt), |cs0|)
  {
    DedupInv(cs0, fmt);
  }

  /** The folding fact, read at a kept position rather than at an index of the kept list. */
  lemma FoldedFolds(cs0: seq<Constraint>, fmt: Formatter, p: Pass, k: nat)
    requires |p.cs| == |cs0| && KeptBelow(p.kept, |cs0|) && Folded(cs0, fmt, p, |cs0|) && k in p.kept
    ensures p.cs[k] == FoldMerge(Base(cs0[k], p.cs[k]), Later(p.cs, p.cs[k].name, k + 1, |cs0|), fmt)
  {
    var a :| 0 <= a < |p.kept| && p.kept[a] == k;
    assert FoldedAt(cs0, fmt, p, |cs0|, a);
  }

  /** A constraint that is not returned is left as it was. */
  lemma DedupLeavesRepeats(cs0: seq<Constraint>, fmt: Formatter, j: nat)
    requires j < |cs0| && j !in Dedup(cs0, fmt).kept
    ensures Dedup(cs0, fmt).cs[j] == cs0[j]
  {
    DedupInv(cs0, fmt);
  }

  /** A returned constraint's column count is its own plus one per repeat folded in. */
  lemma DedupCountsColumns(cs0: seq<Constraint>, fmt: Formatter, p: Pass, k: nat)
    requires p == Dedup(cs0, fmt) && k in p.kept
    ensures p.cs[k].countCols == cs0[k].countCols + |Later(p.cs, p.cs[k].name, k + 1, |cs0|)|
  {
    DedupFolded(cs0, fmt);
    FoldedCountsColumns(cs0, fmt, p, k);
  }

  lemma FoldedCountsColumns(cs0: seq<Constraint>, fmt: Formatter, p: Pass, k: nat)
    requires |p.cs| == |cs0| && KeptBelow(p.kept, |cs0|) && Folded(cs0, fmt, p, |cs0|) && k in p.kept
    ensures p.cs[k].countCols == cs0[k].countCols + |Later(p.cs, p.cs[k].name, k + 1, |cs0|)|
  {
    FoldedFolds(cs0, fmt, p, k);
    FoldedCount(p.cs[k], cs0[k], Later(p.cs, p.cs[k].name, k + 1, |cs0|), fmt);
  }

  /** A constraint folded from its first version counts that version's columns plus one per repeat. */
  lemma FoldedCount(c: Constraint, original: Constraint, reps: seq<Constraint>, fmt: Formatter)
    requires c == FoldMerge(Base(original, c), reps, fmt)
    ensures c.countCols == original.countCols + |reps|
  {
    FoldMergeCount(Base(original, c), reps, fmt);
  }

  /**
   * A constraint with a blank name and a type name is returned, marked as
   * generated, under a name with the stem of its kind; every other constraint
   * keeps its name and its mark.
   */
  lemma DedupGeneratedNames(cs0: seq<Constraint>, fmt: Formatter)
    ensures var p := Dedup(cs0, fmt);
            forall i :: 0 <= i < |cs0| ==>
              if IsNull(cs0[i].name) && !IsNull(cs0[i].typeName) then
                i in p.kept && p.cs[i].generatedName && p.cs[i].name.Some? &&
                StartsWith(p.cs[i].name.value, Naming.ConstraintPrefix(cs0[i].typeName.value))
              else
                p.cs[i].name == cs0[i].name && p.cs[i].generatedName == cs0[i].generatedName
  {
    DedupInv(cs0, fmt);
  }

  /** An increasing list of positions below `n` that holds every position below `n` is `0, 1, ..., n-1`. */
  lemma AllPositions(kept: seq<nat>, n: nat)
    requires KeptBelow(kept, n) && Increasing(kept)
    requires forall i :: 0 <= i < n ==> i in kept
    ensures |kept| == n && forall a :: 0 <= a < n ==> kept[a] == a
  {
    forall a | 0 <= a < n
      ensures a < |kept| && kept[a] == a
    {
      PositionIs(kept, n, a);
    }
    if n > 0 {
      PositionIs(kept, n, n - 1);
    }
    if |kept| > n {
      AtLeastIndex(kept, n);
    }
  }

  lemma {:induction false} PositionIs(kept: seq<nat>, n: nat, a: nat)
    requires KeptBelow(kept, n) && Increasing(kept)
    requires forall i :: 0 <= i < n ==> i in kept
    requires a < n
    ensures a < |kept| && kept[a] == a
    decreases a
  {
    assert a in kept;
    var b :| 0 <= b < |kept| && kept[b] == a;
    if b < a {
      PositionIs(kept, n, b);
    } else if b > a {
      AtLeastIndex(kept, a);
    }
  }

  lemma {:induction false} AtLeastIndex(kept: seq<nat>, a: nat)
    requires Increasing(kept) && a < |kept|
    ensures kept[a] >= a
  {
    if a > 0 {
      AtLeastIndex(kept, a - 1);
    }
  }

  /** With no repeats, `Later` finds nothing. */
  lemma {:induction false} LaterNone(cs: seq<Constraint>, x: JString, lo: nat, hi: nat)
    requires lo <= hi <= |cs| && forall j :: lo <= j < hi ==> cs[j].name != x
    ensures Later(cs, x, lo, hi) == []
    decreases hi - lo
  {
    if lo < hi {
      LaterNone(cs, x, lo, hi - 1);
    }
  }

  /** A list whose names are all present and pairwise different comes back unchanged. */
  lemma NoRepeatsIdentity(cs0: seq<Constraint>, fmt: Formatter)
    requires forall i :: 0 <= i < |cs0| ==> !IsNull(cs0[i].name)
    requires forall i, j :: 0 <= i < j < |cs0| ==> cs0[i].name != cs0[j].name
    ensures Dedup(cs0, fmt).cs == cs0
    ensures Output(Dedup(cs0, fmt)) == cs0
  {
    DedupInv(cs0, fmt);
    InvNoRepeats(cs0, fmt, Dedup(cs0, fmt));
  }

  lemma InvNoRepeats(cs0: seq<Constraint>, fmt: Formatter, p: Pass)
    requires Inv(cs0, fmt, p, |cs0|)
    requires forall i :: 0 <= i < |cs0| ==> !IsNull(cs0[i].name)
    requires forall i, j :: 0 <= i < j < |cs0| ==> cs0[i].name != cs0[j].name
    ensures p.cs == cs0 && Output(p) == cs0
  {
    var n := |cs0|;
    InvAllKept(cs0, fmt, p);
    AllPositions(p.kept, n);
    forall i | 0 <= i < n
      ensures p.cs[i] == cs0[i]
    {
      InvKeptUnchanged(cs0, fmt, p, i);
    }
  }

  /** Without repeats, every position is kept. */
  lemma InvAllKept(cs0: seq<Constraint>, fmt: Formatter, p: Pass)
    requires Inv(cs0, fmt, p, |cs0|)
    requires forall i :: 0 <= i < |cs0| ==> !IsNull(cs0[i].name)
    requires forall i, j :: 0 <= i < j < |cs0| ==> cs0[i].name != cs0[j].name
    ensures forall i :: 0 <= i < |cs0| ==> i in p.kept
  {
    assert forall i :: 0 <= i < |cs0| ==> p.cs[i].name == cs0[i].name;
    InvFirstOccurrences(cs0, fmt, p);
  }

  /** Without repeats, a kept position folds nothing in. */
  lemma InvKeptUnchanged(cs0: seq<Constraint>, fmt: Formatter, p: Pass, i: nat)
    requires Inv(cs0, fmt, p, |cs0|)
    requires forall i :: 0 <= i < |cs0| ==> !IsNull(cs0[i].name)
    requires forall i, j :: 0 <= i < j < |cs0| ==> cs0[i].name != cs0[j].name
    requires i < |p.kept| == |cs0| && p.kept[i] == i
    ensures p.cs[i] == cs0[i]
  {
    var n := |cs0|;
    assert forall j :: 0 <= j < n ==> p.cs[j].name == cs0[j].name;
    assert FoldedAt(cs0, fmt, p, n, i);
    LaterNone(p.cs, p.cs[i].name, i + 1, n);
    assert Base(cs0[i], p.cs[i]) == cs0[i];
  }

  /**
   * Two unique constraints of one name, each on one column, come back as one
   * constraint whose column list is the two formatted columns and whose
   * column count is two.
   */
  lemma MergesTwoColumns(c1: Constraint, c2: Constraint, fmt: Formatter)
    requires !IsNull(c1.name) && c2.name == c1.name
    requires c1.countCols == 1 && c1.column.Some? && c2.column.Some? && c2.refColumn.None?
    ensures Output(Dedup([c1, c2], fmt)) ==
            [c1.(column := Some(fmt.formatObject(c1.column.value) + "," + fmt.formatObject(c2.column.value)),
                 countCols := 2)]
  {
    var cs0 := [c1, c2];
    var p1 := RunTo(cs0, 1, fmt);
    assert RunTo(cs0, 0, fmt) == Pass(cs0, []);
    assert KeptNames(cs0, []) == [];
    assert p1 == Pass(cs0, [0]);
    assert KeptNames(cs0, [0]) == [c1.name];
    assert Dedup(cs0, fmt) == Step(p1, 1, fmt);
    assert Dedup(cs0, fmt) == Pass([Merge(c1, c2, fmt), c2], [0]);
  }
}
