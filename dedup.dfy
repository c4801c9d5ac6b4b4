/**
 * Constraint deduplication, stated on values. `removeDuplicatesConstraints`
 * walks the constraint list once; a constraint without a name gets a generated
 * one, a constraint whose name was already seen is folded into the first
 * constraint with that name (its columns appended, its column count raised),
 * and the first constraint of every name is kept, in list order.
 *
 * `RunTo(cs, n)` is the state of the walk after `n` steps: the constraints as
 * they then are, and the positions kept so far. The method in module
 * `Constraints` is proved to follow it; module `DedupFacts` says what it computes.
 */
module DedupWalk {
  import opened Wrappers
  import opened JavaText
  import opened Syntax
  import opened Descriptors
  import opened Naming

  /** The value of a `ColumnConstraint` object. */
  datatype Constraint = Constraint(
    name: JString,
    generatedName: bool,
    typeName: JString,
    kind: int,
    column: JString,
    refColumn: JString,
    countCols: int,
    check: JString,
    columnDisplayList: string,
    refTable: JString,
    refColumnDisplayList: string,
    updateRule: JString,
    deleteRule: JString,
    tablespace: JString)

  /** The names of a constraint list, in order. */
  function Names(cs: seq<Constraint>): (r: seq<JString>)
    ensures |r| == |cs| && forall i :: 0 <= i < |cs| ==> r[i] == cs[i].name
  {
    if cs == [] then [] else Names(cs[..|cs| - 1]) + [cs[|cs| - 1].name]
  }

  /** `List.indexOf`: the first position holding `x`, or -1. */
  function IndexOf(xs: seq<JString>, x: JString): (r: int)
    ensures -1 <= r < |xs|
    ensures r >= 0 ==> xs[r] == x && forall j :: 0 <= j < r ==> xs[j] != x
    ensures r == -1 <==> x !in xs
  {
    if xs == [] then -1
    else if xs[0] == x then 0
    else
      var k := IndexOf(xs[1..], x);
      if k == -1 then -1 else k + 1
  }

  /** The names at the kept positions. */
  function KeptNames(cs: seq<Constraint>, kept: seq<nat>): (r: seq<JString>)
    requires forall a :: 0 <= a < |kept| ==> kept[a] < |cs|
    ensures |r| == |kept| && forall a :: 0 <= a < |kept| ==> r[a] == cs[kept[a]].name
  {
    if kept == [] then [] else KeptNames(cs, kept[..|kept| - 1]) + [cs[kept[|kept| - 1]].name]
  }

  /**
   * Lines 505-509: a constraint with a blank name and a type name is given the
   * next free name of its kind, computed over the names the whole list has at
   * that moment, and marked as generated.
   */
  function Named(c: Constraint, cs: seq<Constraint>): (r: Constraint)
    ensures r.column == c.column && r.refColumn == c.refColumn && r.countCols == c.countCols
  {
    if IsNull(c.name) && !IsNull(c.typeName) then
      c.(name := Some(NextName(ConstraintPrefix(c.typeName.value), Names(cs))), generatedName := true)
    else c
  }

  /**
   * Lines 515-527, one column list: the list so far (formatted first when the
   * constraint still has one column), a comma, the formatted new column.
   */
  function AppendColumn(prior: JString, priorCount: int, next: string, fmt: Formatter): string {
    Show(if priorCount == 1 then fmt.ObjectOrNull(prior) else prior) + "," + fmt.formatObject(next)
  }

  /** Lines 512-528: folding the repeat `rep` into the first constraint of its name. */
  function Merge(origin: Constraint, rep: Constraint, fmt: Formatter): (r: Constraint)
    ensures r.name == origin.name && r.generatedName == origin.generatedName
    ensures r.countCols == origin.countCols + 1
    ensures r.column == (if rep.column.None? then origin.column
                         else Some(AppendColumn(origin.column, origin.countCols, rep.column.value, fmt)))
    ensures r.refColumn == (if rep.refColumn.None? then origin.refColumn
                            else Some(AppendColumn(origin.refColumn, origin.countCols, rep.refColumn.value, fmt)))
    ensures r == origin.(column := r.column, refColumn := r.refColumn, countCols := r.countCols)
  {
    var column := if rep.column.None? then origin.column
                  else Some(AppendColumn(origin.column, origin.countCols, rep.column.value, fmt));
    var refColumn := if rep.refColumn.None? then origin.refColumn
                     else Some(AppendColumn(origin.refColumn, origin.countCols, rep.refColumn.value, fmt));
    origin.(column := column, refColumn := refColumn, countCols := origin.countCols + 1)
  }

  /** Folding a sequence of repeats into `origin`, oldest first. */
  function FoldMerge(origin: Constraint, reps: seq<Constraint>, fmt: Formatter): Constraint {
    if reps == [] then origin
    else Merge(FoldMerge(origin, reps[..|reps| - 1], fmt), reps[|reps| - 1], fmt)
  }

  /** The state of the walk: the constraints as they now are, and the positions kept, in order. */
  datatype Pass = Pass(cs: seq<Constraint>, kept: seq<nat>)

  predicate KeptBelow(kept: seq<nat>, n: int) {
    forall a :: 0 <= a < |kept| ==> kept[a] < n
  }

  predicate Increasing(kept: seq<nat>) {
    forall a, b :: 0 <= a < b < |kept| ==> kept[a] < kept[b]
  }

  /** Step `i` of the walk (lines 505-533). */
  function Step(p: Pass, i: nat, fmt: Formatter): (q: Pass)
    requires i < |p.cs| && KeptBelow(p.kept, i)
    ensures |q.cs| == |p.cs| && KeptBelow(q.kept, i + 1)
    ensures q.kept == p.kept || q.kept == p.kept + [i]
  {
    var c := Named(p.cs[i], p.cs);
    var cs1 := p.cs[i := c];
    var ind := IndexOf(KeptNames(cs1, p.kept), c.name);
    if ind >= 0 then
      var k := p.kept[ind];
      Pass(cs1[k := Merge(cs1[k], c, fmt)], p.kept)
    else
      Pass(cs1, p.kept + [i])
  }

  /** The walk after its first `n` steps. */
  function RunTo(cs0: seq<Constraint>, n: nat, fmt: Formatter): (p: Pass)
    requires n <= |cs0|
    ensures |p.cs| == |cs0| && KeptBelow(p.kept, n) && Increasing(p.kept)
  {
    if n == 0 then Pass(cs0, [])
    else Step(RunTo(cs0, n - 1, fmt), n - 1, fmt)
  }

  /** The whole walk. */
  function Dedup(cs0: seq<Constraint>, fmt: Formatter): (p: Pass)
    ensures |p.cs| == |cs0| && KeptBelow(p.kept, |cs0|) && Increasing(p.kept)
  {
    RunTo(cs0, |cs0|, fmt)
  }

  /** The list `removeDuplicatesConstraints` returns, as values. */
  function Output(p: Pass): (r: seq<Constraint>)
    requires KeptBelow(p.kept, |p.cs|)
    ensures |r| == |p.kept| && forall a :: 0 <= a < |p.kept| ==> r[a] == p.cs[p.kept[a]]
    decreases |p.kept|
  {
    if p.kept == [] then [] else Output(Pass(p.cs, p.kept[..|p.kept| - 1])) + [p.cs[p.kept[|p.kept| - 1]]]
  }

  /** The constraints in positions `lo .. hi-1` whose name is `x`, in order. */
  function Later(cs: seq<Constraint>, x: JString, lo: nat, hi: nat): seq<Constraint>
    requires lo <= hi <= |cs|
    decreases hi - lo
  {
    if lo == hi then []
    else Later(cs, x, lo, hi - 1) + (if cs[hi - 1].name == x then [cs[hi - 1]] else [])
  }

  /** A kept constraint as it was when first seen: its original columns, under the name it then had. */
  function Base(original: Constraint, now: Constraint): Constraint {
    original.(name := now.name, generatedName := now.generatedName)
  }

  /** Positions not yet visited are untouched. */
  predicate Untouched(cs0: seq<Constraint>, p: Pass, n: nat) {
    |p.cs| == |cs0| && KeptBelow(p.kept, n) && Increasing(p.kept) &&
    forall i :: n <= i < |cs0| ==> p.cs[i] == cs0[i]
  }

  /** Kept names are pairwise different. */
  predicate DistinctKept(p: Pass)
    requires KeptBelow(p.kept, |p.cs|)
  {
    forall a, b :: 0 <= a < b < |p.kept| ==> p.cs[p.kept[a]].name != p.cs[p.kept[b]].name
  }

  /** Position `i` shares its name with a kept position at or before it. */
  predicate CoveredAt(p: Pass, i: nat)
    requires i < |p.cs| && KeptBelow(p.kept, |p.cs|)
  {
    exists a :: 0 <= a < |p.kept| && p.kept[a] <= i && p.cs[p.kept[a]].name == p.cs[i].name
  }

  /** Every visited position shares its name with a kept position at or before it. */
  predicate Covered(p: Pass, n: nat)
    requires n <= |p.cs| && KeptBelow(p.kept, |p.cs|)
  {
    forall i :: 0 <= i < n ==> CoveredAt(p, i)
  }

  /** Kept entry `a` is its first version with every later repeat folded in. */
  predicate FoldedAt(cs0: seq<Constraint>, fmt: Formatter, p: Pass, n: nat, a: nat)
    requires n <= |p.cs| == |cs0| && KeptBelow(p.kept, n) && a < |p.kept|
  {
    p.cs[p.kept[a]] == FoldMerge(Base(cs0[p.kept[a]], p.cs[p.kept[a]]),
                                 Later(p.cs, p.cs[p.kept[a]].name, p.kept[a] + 1, n), fmt)
  }

  /** Every kept entry is its first version with every later repeat folded in. */
  predicate Folded(cs0: seq<Constraint>, fmt: Formatter, p: Pass, n: nat)
    requires n <= |p.cs| == |cs0| && KeptBelow(p.kept, n)
  {
    forall a :: 0 <= a < |p.kept| ==> FoldedAt(cs0, fmt, p, n, a)
  }

  /** A visited name was generated exactly when it was blank and the type name was not. */
  predicate NamesSettled(cs0: seq<Constraint>, p: Pass, n: nat)
    requires n <= |p.cs| == |cs0|
  {
    forall i :: 0 <= i < n ==>
      if IsNull(cs0[i].name) && !IsNull(cs0[i].typeName) then
        i in p.kept && p.cs[i].generatedName && p.cs[i].name.Some? &&
        StartsWith(p.cs[i].name.value, ConstraintPrefix(cs0[i].typeName.value))
      else
        p.cs[i].name == cs0[i].name && p.cs[i].generatedName == cs0[i].generatedName
  }

  /** A visited position that was not kept still holds the original constraint. */
  predicate RepeatsUnchanged(cs0: seq<Constraint>, p: Pass, n: nat)
    requires n <= |p.cs| == |cs0|
  {
    forall j :: 0 <= j < n && j !in p.kept ==> p.cs[j] == cs0[j]
  }

  /** The facts the walk keeps after `n` steps. */
  predicate Inv(cs0: seq<Constraint>, fmt: Formatter, p: Pass, n: nat)
    requires n <= |cs0|
  {
    Untouched(cs0, p, n) && DistinctKept(p) && Covered(p, n) &&
    Folded(cs0, fmt, p, n) && NamesSettled(cs0, p, n) && RepeatsUnchanged(cs0, p, n)
  }

  /** `Later` sees only the names in its range and the constraints that carry `x`. */
  lemma {:induction false} LaterFrame(cs: seq<Constraint>, ds: seq<Constraint>, x: JString, lo: nat, hi: nat)
    requires lo <= hi <= |cs| && hi <= |ds|
    requires forall j :: lo <= j < hi ==> cs[j].name == ds[j].name && (cs[j].name == x ==> cs[j] == ds[j])
    ensures Later(cs, x, lo, hi) == Later(ds, x, lo, hi)
    decreases hi - lo
  {
    if lo < hi {
      LaterFrame(cs, ds, x, lo, hi - 1);
    }
  }

  /** `Later` over one more position. */
  lemma LaterSnoc(cs: seq<Constraint>, x: JString, lo: nat, hi: nat, n: nat)
    requires lo <= hi < |cs| && n == hi + 1
    ensures Later(cs, x, lo, n) == Later(cs, x, lo, hi) + (if cs[hi].name == x then [cs[hi]] else [])
  {
  }

  /** Folding one more repeat. */
  lemma FoldMergeSnoc(origin: Constraint, reps: seq<Constraint>, rep: Constraint, fmt: Formatter)
    ensures FoldMerge(origin, reps + [rep], fmt) == Merge(FoldMerge(origin, reps, fmt), rep, fmt)
  {
    assert (reps + [rep])[..|reps|] == reps;
  }

  /** A generated name is new to every name the list holds. */
  lemma GeneratedNameIsNew(c: Constraint, cs: seq<Constraint>)
    requires IsNull(c.name) && !IsNull(c.typeName)
    ensures Named(c, cs).name !in Names(cs)
    ensures StartsWith(Named(c, cs).name.value, ConstraintPrefix(c.typeName.value))
  {
    var prefix := ConstraintPrefix(c.typeName.value);
    StemShapes("", c.typeName.value);
    GeneratedNameIsFresh(prefix, Names(cs));
    var g := NextName(prefix, Names(cs));
    assert g[..|prefix|] == prefix;
  }

  /** The name a step gives position `i`, and where the step puts it. */
  function StepName(p: Pass, i: nat): JString
    requires i < |p.cs|
  {
    Named(p.cs[i], p.cs).name
  }

  /** `c` is `d` under another name. */
  predicate Renames(c: Constraint, d: Constraint) {
    c == d.(name := c.name, generatedName := c.generatedName)
  }

  /** The step that keeps position `i`, renamed to `c`. */
  function Appended(p: Pass, i: nat, c: Constraint): Pass
    requires i < |p.cs|
  {
    Pass(p.cs[i := c], p.kept + [i])
  }

  /** The step that folds position `i`, renamed to `c`, into kept entry `ind`. */
  function FoldedInto(p: Pass, i: nat, c: Constraint, ind: nat, fmt: Formatter): Pass
    requires i < |p.cs| && KeptBelow(p.kept, i) && ind < |p.kept|
  {
    Pass(p.cs[i := c][p.kept[ind] := Merge(p.cs[p.kept[ind]], c, fmt)], p.kept)
  }

  /** A step keeps position `i` when its name is new among the kept names. */
  lemma StepAppends(p: Pass, i: nat, fmt: Formatter)
    requires i < |p.cs| && KeptBelow(p.kept, i)
    requires Named(p.cs[i], p.cs).name !in KeptNames(p.cs, p.kept)
    ensures Step(p, i, fmt) == Appended(p, i, Named(p.cs[i], p.cs))
  {
    var c := Named(p.cs[i], p.cs);
    assert KeptNames(p.cs[i := c], p.kept) == KeptNames(p.cs, p.kept);
  }

  /** Otherwise it folds position `i` into the kept position of the same name. */
  lemma StepFolds(p: Pass, i: nat, fmt: Formatter) returns (ind: nat)
    requires i < |p.cs| && KeptBelow(p.kept, i)
    requires Named(p.cs[i], p.cs).name in KeptNames(p.cs, p.kept)
    ensures ind < |p.kept| && p.cs[p.kept[ind]].name == Named(p.cs[i], p.cs).name
    ensures Step(p, i, fmt) == FoldedInto(p, i, Named(p.cs[i], p.cs), ind, fmt)
  {
    var c := Named(p.cs[i], p.cs);
    assert KeptNames(p.cs[i := c], p.kept) == KeptNames(p.cs, p.kept);
    ind := IndexOf(KeptNames(p.cs, p.kept), c.name);
  }

  lemma AppendKeepsInv(cs0: seq<Constraint>, fmt: Formatter, p: Pass, i: nat, c: Constraint, n: nat)
    requires i < |cs0| && n == i + 1 && Untouched(cs0, p, i) && DistinctKept(p) && Covered(p, i) && Folded(cs0, fmt, p, i)
    requires Renames(c, p.cs[i]) && c.name !in KeptNames(p.cs, p.kept)
    ensures var q := Appended(p, i, c);
            Untouched(cs0, q, n) && DistinctKept(q) && Covered(q, n) && Folded(cs0, fmt, q, n)
  {
    AppendDistinct(cs0, p, i, c, n);
    AppendCovered(cs0, p, i, c, n);
    AppendFolded(cs0, fmt, p, i, c, n);
  }

  lemma AppendDistinct(cs0: seq<Constraint>, p: Pass, i: nat, c: Constraint, n: nat)
    requires i < |cs0| && n == i + 1 && Untouched(cs0, p, i) && DistinctKept(p)
    requires c.name !in KeptNames(p.cs, p.kept)
    ensures DistinctKept(Appended(p, i, c))
  {
    var q := Appended(p, i, c);
    var names := KeptNames(p.cs, p.kept);
    forall a, b | 0 <= a < b < |q.kept|
      ensures q.cs[q.kept[a]].name != q.cs[q.kept[b]].name
    {
      if b == |p.kept| {
        assert names[a] == q.cs[q.kept[a]].name;
      }
    }
  }

  lemma AppendCovered(cs0: seq<Constraint>, p: Pass, i: nat, c: Constraint, n: nat)
    requires i < |cs0| && n == i + 1 && Untouched(cs0, p, i) && Covered(p, i)
    ensures Covered(Appended(p, i, c), n)
  {
    var q := Appended(p, i, c);
    forall j | 0 <= j < n
      ensures CoveredAt(q, j)
    {
      if j == i {
        assert q.kept[|p.kept|] <= j;
      } else {
        assert CoveredAt(p, j);
        var a :| 0 <= a < |p.kept| && p.kept[a] <= j && p.cs[p.kept[a]].name == p.cs[j].name;
        assert q.kept[a] <= j && q.cs[q.kept[a]].name == q.cs[j].name;
      }
    }
  }

  lemma AppendFolded(cs0: seq<Constraint>, fmt: Formatter, p: Pass, i: nat, c: Constraint, n: nat)
    requires i < |cs0| && n == i + 1 && Untouched(cs0, p, i) && Folded(cs0, fmt, p, i)
    requires Renames(c, p.cs[i]) && c.name !in KeptNames(p.cs, p.kept)
    ensures Folded(cs0, fmt, Appended(p, i, c), n)
  {
    var q := Appended(p, i, c);
    var names := KeptNames(p.cs, p.kept);
    forall a | 0 <= a < |q.kept|
      ensures FoldedAt(cs0, fmt, q, n, a)
    {
      if a < |p.kept| {
        var ka := p.kept[a];
        var y := p.cs[ka].name;
        assert FoldedAt(cs0, fmt, p, i, a);
        assert names[a] == y && c.name != y;
        assert q.kept[a] == ka && q.cs[ka] == p.cs[ka];
        LaterFrame(p.cs, q.cs, y, ka + 1, i);
        LaterSnoc(q.cs, y, ka + 1, i, n);
        FoldedAtTransfer(cs0, fmt, p, i, q, n, a);
      } else {
        assert q.kept[a] == i && q.cs[i] == c;
        assert Base(cs0[i], c) == c;
        assert Later(q.cs, c.name, i + 1, n) == [];
      }
    }
  }

  lemma FoldKeepsInv(cs0: seq<Constraint>, fmt: Formatter, p: Pass, i: nat, c: Constraint, ind: nat, n: nat)
    requires i < |cs0| && n == i + 1 && Untouched(cs0, p, i) && DistinctKept(p) && Covered(p, i) && Folded(cs0, fmt, p, i)
    requires Renames(c, p.cs[i]) && ind < |p.kept| && p.cs[p.kept[ind]].name == c.name
    ensures var q := FoldedInto(p, i, c, ind, fmt);
            Untouched(cs0, q, n) && DistinctKept(q) && Covered(q, n) && Folded(cs0, fmt, q, n)
  {
    FoldNames(cs0, fmt, p, i, c, ind, n);
    FoldCovered(cs0, fmt, p, i, c, ind, n);
    FoldFolded(cs0, fmt, p, i, c, ind, n);
  }

  /** Folding renames nothing but position `i`. */
  lemma FoldNames(cs0: seq<Constraint>, fmt: Formatter, p: Pass, i: nat, c: Constraint, ind: nat, n: nat)
    requires i < |cs0| && n == i + 1 && Untouched(cs0, p, i) && ind < |p.kept| && p.cs[p.kept[ind]].name == c.name
    ensures var q := FoldedInto(p, i, c, ind, fmt);
            q.kept == p.kept && |q.cs| == |p.cs| &&
            forall j :: 0 <= j < |q.cs| ==> q.cs[j].name == (if j == i then c.name else p.cs[j].name)
  {
  }

  lemma FoldCovered(cs0: seq<Constraint>, fmt: Formatter, p: Pass, i: nat, c: Constraint, ind: nat, n: nat)
    requires i < |cs0| && n == i + 1 && Untouched(cs0, p, i) && Covered(p, i)
    requires ind < |p.kept| && p.cs[p.kept[ind]].name == c.name
    ensures Covered(FoldedInto(p, i, c, ind, fmt), n)
  {
    var q := FoldedInto(p, i, c, ind, fmt);
    FoldNames(cs0, fmt, p, i, c, ind, n);
    forall j | 0 <= j < n
      ensures CoveredAt(q, j)
    {
      if j == i {
        assert q.kept[ind] <= j && q.cs[q.kept[ind]].name == q.cs[j].name;
      } else {
        assert CoveredAt(p, j);
        var a :| 0 <= a < |p.kept| && p.kept[a] <= j && p.cs[p.kept[a]].name == p.cs[j].name;
        assert q.kept[a] <= j && q.cs[q.kept[a]].name == q.cs[j].name;
      }
    }
  }

  lemma FoldFolded(cs0: seq<Constraint>, fmt: Formatter, p: Pass, i: nat, c: Constraint, ind: nat, n: nat)
    requires i < |cs0| && n == i + 1 && Untouched(cs0, p, i) && DistinctKept(p) && Folded(cs0, fmt, p, i)
    requires ind < |p.kept| && p.cs[p.kept[ind]].name == c.name
    ensures Folded(cs0, fmt, FoldedInto(p, i, c, ind, fmt), n)
  {
    var q := FoldedInto(p, i, c, ind, fmt);
    var k := p.kept[ind];
    var x := c.name;
    FoldNames(cs0, fmt, p, i, c, ind, n);
    forall a | 0 <= a < |q.kept|
      ensures FoldedAt(cs0, fmt, q, n, a)
    {
      assert FoldedAt(cs0, fmt, p, i, a);
      if a == ind {
        FoldFoldedTarget(cs0, fmt, p, i, c, ind, n);
      } else {
        assert p.cs[p.kept[a]].name != p.cs[p.kept[ind]].name;
        FoldFoldedOther(cs0, fmt, p, i, c, ind, n, a);
      }
    }
  }

  /** A kept entry other than the one a repeat is folded into. */
  lemma FoldFoldedOther(cs0: seq<Constraint>, fmt: Formatter, p: Pass, i: nat, c: Constraint, ind: nat, n: nat, a: nat)
    requires i < |cs0| && n == i + 1 && Untouched(cs0, p, i)
    requires ind < |p.kept| && p.cs[p.kept[ind]].name == c.name && a < |p.kept| && a != ind
    requires FoldedAt(cs0, fmt, p, i, a) && p.cs[p.kept[a]].name != c.name
    ensures FoldedAt(cs0, fmt, FoldedInto(p, i, c, ind, fmt), n, a)
  {
    var q := FoldedInto(p, i, c, ind, fmt);
    var ka := p.kept[a];
    var y := p.cs[ka].name;
    FoldNames(cs0, fmt, p, i, c, ind, n);
    assert q.kept[a] == ka && q.cs[ka] == p.cs[ka];
    LaterFrame(p.cs, q.cs, y, ka + 1, i);
    LaterSnoc(q.cs, y, ka + 1, i, n);
    FoldedAtTransfer(cs0, fmt, p, i, q, n, a);
  }

  /**
   * A kept entry that a step leaves alone, and whose later repeats it leaves
   * alone, stays folded.
   */
  lemma FoldedAtTransfer(cs0: seq<Constraint>, fmt: Formatter, p: Pass, i: nat, q: Pass, n: nat, a: nat)
    requires i <= n <= |cs0| == |p.cs| == |q.cs| && KeptBelow(p.kept, i) && KeptBelow(q.kept, n)
    requires a < |p.kept| && a < |q.kept| && q.kept[a] == p.kept[a] && q.cs[p.kept[a]] == p.cs[p.kept[a]]
    requires Later(q.cs, p.cs[p.kept[a]].name, p.kept[a] + 1, n) == Later(p.cs, p.cs[p.kept[a]].name, p.kept[a] + 1, i)
    requires FoldedAt(cs0, fmt, p, i, a)
    ensures FoldedAt(cs0, fmt, q, n, a)
  {
  }

  /** The kept entry a repeat is folded into. */
  lemma FoldFoldedTarget(cs0: seq<Constraint>, fmt: Formatter, p: Pass, i: nat, c: Constraint, ind: nat, n: nat)
    requires i < |cs0| && n == i + 1 && Untouched(cs0, p, i)
    requires ind < |p.kept| && p.cs[p.kept[ind]].name == c.name && FoldedAt(cs0, fmt, p, i, ind)
    ensures FoldedAt(cs0, fmt, FoldedInto(p, i, c, ind, fmt), n, ind)
  {
    var q := FoldedInto(p, i, c, ind, fmt);
    var k := p.kept[ind];
    var x := c.name;
    assert q.cs[k] == Merge(p.cs[k], c, fmt);
    assert forall j :: k + 1 <= j < i ==> q.cs[j] == p.cs[j];
    LaterFrame(p.cs, q.cs, x, k + 1, i);
    LaterSnoc(q.cs, x, k + 1, i, n);
    assert q.cs[i] == c;
    FoldedAtGrow(cs0, fmt, p, i, q, n, ind, c);
  }

  /** Merging the next repeat into a kept entry keeps it folded. */
  lemma FoldedAtGrow(cs0: seq<Constraint>, fmt: Formatter, p: Pass, i: nat, q: Pass, n: nat, a: nat, c: Constraint)
    requires i <= n <= |cs0| == |p.cs| == |q.cs| && KeptBelow(p.kept, i) && KeptBelow(q.kept, n)
    requires a < |p.kept| && a < |q.kept| && q.kept[a] == p.kept[a]
    requires q.cs[p.kept[a]] == Merge(p.cs[p.kept[a]], c, fmt)
    requires Later(q.cs, c.name, p.kept[a] + 1, n) == Later(p.cs, c.name, p.kept[a] + 1, i) + [c]
    requires p.cs[p.kept[a]].name == c.name && FoldedAt(cs0, fmt, p, i, a)
    ensures FoldedAt(cs0, fmt, q, n, a)
  {
    var k := p.kept[a];
    var base := Base(cs0[k], p.cs[k]);
    var reps := Later(p.cs, c.name, k + 1, i);
    FoldMergeSnoc(base, reps, c, fmt);
    assert Base(cs0[k], q.cs[k]) == base;
  }

  /** A blank-named constraint with a type name is kept under its generated name. */
  lemma StepKeepsGenerated(p: Pass, i: nat, fmt: Formatter)
    requires i < |p.cs| && KeptBelow(p.kept, i)
    requires IsNull(p.cs[i].name) && !IsNull(p.cs[i].typeName)
    ensures Named(p.cs[i], p.cs).name !in KeptNames(p.cs, p.kept)
  {
    GeneratedNameIsNew(p.cs[i], p.cs);
  }

  /** How a step names position `i`: a generated name of its kind, or the name it had. */
  predicate NameRule(c0: Constraint, c: Constraint) {
    if IsNull(c0.name) && !IsNull(c0.typeName) then
      c.generatedName && c.name.Some? && StartsWith(c.name.value, ConstraintPrefix(c0.typeName.value))
    else
      c.name == c0.name && c.generatedName == c0.generatedName
  }

  lemma NamedFollowsRule(c0: Constraint, cs: seq<Constraint>)
    ensures NameRule(c0, Named(c0, cs)) && Renames(Named(c0, cs), c0)
  {
    if IsNull(c0.name) && !IsNull(c0.typeName) {
      GeneratedNameIsNew(c0, cs);
    }
  }

  lemma AppendNamesSettled(cs0: seq<Constraint>, p: Pass, i: nat, c: Constraint, n: nat)
    requires i < |cs0| && n == i + 1 && Untouched(cs0, p, i) && NamesSettled(cs0, p, i)
    requires NameRule(cs0[i], c)
    ensures NamesSettled(cs0, Appended(p, i, c), n)
  {
    var q := Appended(p, i, c);
    assert q.kept[|p.kept|] == i;
    forall j | 0 <= j < i && j in p.kept
      ensures j in q.kept
    {
      var a :| 0 <= a < |p.kept| && p.kept[a] == j;
      assert q.kept[a] == j;
    }
  }

  lemma FoldNamesSettled(cs0: seq<Constraint>, fmt: Formatter, p: Pass, i: nat, c: Constraint, ind: nat, n: nat)
    requires i < |cs0| && n == i + 1 && Untouched(cs0, p, i) && NamesSettled(cs0, p, i)
    requires ind < |p.kept| && p.cs[p.kept[ind]].name == c.name
    requires NameRule(cs0[i], c) && !(IsNull(cs0[i].name) && !IsNull(cs0[i].typeName))
    ensures NamesSettled(cs0, FoldedInto(p, i, c, ind, fmt), n)
  {
    var q := FoldedInto(p, i, c, ind, fmt);
    assert q.kept == p.kept;
    assert q.cs[p.kept[ind]].generatedName == p.cs[p.kept[ind]].generatedName;
  }

  lemma AppendRepeats(cs0: seq<Constraint>, p: Pass, i: nat, c: Constraint, n: nat)
    requires i < |cs0| && n == i + 1 && Untouched(cs0, p, i) && RepeatsUnchanged(cs0, p, i)
    ensures RepeatsUnchanged(cs0, Appended(p, i, c), n)
  {
    var q := Appended(p, i, c);
    assert q.kept[|p.kept|] == i;
  }

  lemma FoldRepeats(cs0: seq<Constraint>, fmt: Formatter, p: Pass, i: nat, c: Constraint, ind: nat, n: nat)
    requires i < |cs0| && n == i + 1 && Untouched(cs0, p, i) && RepeatsUnchanged(cs0, p, i)
    requires ind < |p.kept| && c == cs0[i]
    ensures RepeatsUnchanged(cs0, FoldedInto(p, i, c, ind, fmt), n)
  {
    var q := FoldedInto(p, i, c, ind, fmt);
    assert q.kept == p.kept;
    forall j | 0 <= j < n && j !in q.kept
      ensures q.cs[j] == cs0[j]
    {
      assert j != p.kept[ind];
    }
  }

  /** One step keeps the facts. */
  lemma StepKeepsInv(cs0: seq<Constraint>, fmt: Formatter, p: Pass, i: nat, n: nat, q: Pass)
    requires i < |cs0| && n == i + 1 && Inv(cs0, fmt, p, i)
    requires q == Step(p, i, fmt)
    ensures Inv(cs0, fmt, q, n)
  {
    var c := Named(p.cs[i], p.cs);
    assert p.cs[i] == cs0[i];
    NamedFollowsRule(cs0[i], p.cs);
    if c.name in KeptNames(p.cs, p.kept) {
      if IsNull(cs0[i].name) && !IsNull(cs0[i].typeName) {
        StepKeepsGenerated(p, i, fmt);
        assert false;
      }
      var ind := StepFolds(p, i, fmt);
      FoldKeepsInv(cs0, fmt, p, i, c, ind, n);
      FoldNamesSettled(cs0, fmt, p, i, c, ind, n);
      FoldRepeats(cs0, fmt, p, i, c, ind, n);
    } else {
      StepAppends(p, i, fmt);
      AppendKeepsInv(cs0, fmt, p, i, c, n);
      AppendNamesSettled(cs0, p, i, c, n);
      AppendRepeats(cs0, p, i, c, n);
    }
  }
}
