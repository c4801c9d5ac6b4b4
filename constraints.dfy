/**
 * The `ColumnConstraint` objects `removeDuplicatesConstraints` updates in place,
 * and the two loops of `SQLUtils` over a list of them: generating a constraint
 * name, and folding constraints that share a name into the first one.
 *
 * Each object's value is its `Snapshot()`; the methods are proved to do to the
 * list what the walk of module `DedupWalk` does to the values.
 */
module Constraints {
  import opened Wrappers
  import opened JavaText
  import opened Syntax
  import opened Descriptors
  import opened Naming
  import opened DedupWalk
  import DedupFacts

  /**
   * A table constraint. The fields the deduplication changes are variables;
   * the rest are read only here.
   */
  class ColumnConstraint {
    var name: JString
    var generatedName: bool
    var column: JString
    var refColumn: JString
    var countCols: int
    const typeName: JString
    const kind: int
    const check: JString
    const columnDisplayList: string
    const refTable: JString
    const refColumnDisplayList: string
    const updateRule: JString
    const deleteRule: JString
    const tablespace: JString

    constructor (c: Constraint)
      ensures Snapshot() == c
    {
      name := c.name;
      generatedName := c.generatedName;
      column := c.column;
      refColumn := c.refColumn;
      countCols := c.countCols;
      typeName := c.typeName;
      kind := c.kind;
      check := c.check;
      columnDisplayList := c.columnDisplayList;
      refTable := c.refTable;
      refColumnDisplayList := c.refColumnDisplayList;
      updateRule := c.updateRule;
      deleteRule := c.deleteRule;
      tablespace := c.tablespace;
    }

    /** The value the object holds now. */
    function Snapshot(): Constraint
      reads this
    {
      Constraint(name, generatedName, typeName, kind, column, refColumn, countCols, check,
                 columnDisplayList, refTable, refColumnDisplayList, updateRule, deleteRule, tablespace)
    }
  }

  /** The values a list of constraint objects holds now. */
  function Snapshots(list: seq<ColumnConstraint>): (r: seq<Constraint>)
    reads list
    ensures |r| == |list| && forall i :: 0 <= i < |list| ==> r[i] == list[i].Snapshot()
  {
    if list == [] then [] else Snapshots(list[..|list| - 1]) + [list[|list| - 1].Snapshot()]
  }

  /** The objects at the given positions, in order. */
  function Pick(list: seq<ColumnConstraint>, kept: seq<nat>): (r: seq<ColumnConstraint>)
    requires KeptBelow(kept, |list|)
    ensures |r| == |kept| && forall a :: 0 <= a < |kept| ==> r[a] == list[kept[a]]
  {
    if kept == [] then [] else Pick(list, kept[..|kept| - 1]) + [list[kept[|kept| - 1]]]
  }

  /** No object occurs twice in the list. */
  predicate Distinct(list: seq<ColumnConstraint>) {
    forall i, j :: 0 <= i < j < |list| ==> list[i] != list[j]
  }

  /**
   * `generateNameForConstraint` (lines 463-498): the stem of the type, then one
   * more than the largest number the scan finds in the names the list holds.
   */
  method GenerateNameForConstraint(typeName: string, keys: seq<ColumnConstraint>) returns (r: string)
    ensures r == NextName(ConstraintPrefix(typeName), Names(Snapshots(keys)))
    ensures Some(r) !in Names(Snapshots(keys))
  {
    var name := ConstraintPrefix(typeName);
    ghost var names := Names(Snapshots(keys));
    var intNumber: nat := 0;
    for i := 0 to |keys|
      invariant intNumber == HighestSuffix(name, names[..i])
    {
      intNumber := ScanSuffix(name, names, i, keys[i].name, intNumber);
    }
    assert names[..|keys|] == names;
    r := name + NatToString(intNumber + 1);
    StemShapes("", typeName);
    GeneratedNameIsFresh(name, names);
  }

  /**
   * `removeDuplicatesConstraints` (lines 500-535): the objects end up holding
   * the values the walk computes, and the list returned holds the objects at
   * the kept positions, in order.
   */
  method RemoveDuplicatesConstraints(list: seq<ColumnConstraint>, fmt: Formatter) returns (r: seq<ColumnConstraint>)
    requires Distinct(list)
    modifies list
    ensures Snapshots(list) == Dedup(old(Snapshots(list)), fmt).cs
    ensures |r| == |Dedup(old(Snapshots(list)), fmt).kept|
    ensures forall a :: 0 <= a < |r| ==> r[a] == list[Dedup(old(Snapshots(list)), fmt).kept[a]]
    ensures Snapshots(r) == Output(Dedup(old(Snapshots(list)), fmt))
  {
    ghost var cs0 := Snapshots(list);
    ghost var kept: seq<nat> := [];
    var ccNames: seq<JString> := [];
    var out: seq<ColumnConstraint> := [];
    for i := 0 to |list|
      invariant RunTo(cs0, i, fmt) == Pass(Snapshots(list), kept)
      invariant ccNames == KeptNames(Snapshots(list), kept)
      invariant out == Pick(list, kept)
    {
      ccNames, out, kept := Visit(list, i, ccNames, out, fmt, cs0, kept);
    }
    r := out;
    assert Dedup(cs0, fmt) == Pass(Snapshots(list), kept);
    PickedOutput(list, kept);
  }

  /** The values of the objects picked are the values the walk outputs. */
  lemma PickedOutput(list: seq<ColumnConstraint>, kept: seq<nat>)
    requires KeptBelow(kept, |list|)
    ensures Snapshots(Pick(list, kept)) == Output(Pass(Snapshots(list), kept))
  {
    var picked := Snapshots(Pick(list, kept));
    var out := Output(Pass(Snapshots(list), kept));
    assert |picked| == |out|;
    forall a | 0 <= a < |kept|
      ensures picked[a] == out[a]
    {
    }
  }

  /**
   * One pass of the loop of `removeDuplicatesConstraints` (lines 505-533):
   * the constraint at position `i` is named if need be, then either folded
   * into the kept constraint of the same name or kept itself.
   */
  method Visit(list: seq<ColumnConstraint>, i: nat, ccNames: seq<JString>, out: seq<ColumnConstraint>, fmt: Formatter,
               ghost cs0: seq<Constraint>, ghost kept: seq<nat>)
      returns (ccNames': seq<JString>, out': seq<ColumnConstraint>, ghost kept': seq<nat>)
    requires i < |list| == |cs0| && Distinct(list)
    requires RunTo(cs0, i, fmt) == Pass(Snapshots(list), kept)
    requires ccNames == KeptNames(Snapshots(list), kept)
    requires out == Pick(list, kept)
    modifies list
    ensures RunTo(cs0, i + 1, fmt) == Pass(Snapshots(list), kept')
    ensures ccNames' == KeptNames(Snapshots(list), kept')
    ensures out' == Pick(list, kept')
  {
    ghost var before := Snapshots(list);
    NameAt(list, i);
    var c := list[i];
    var ind := IndexOf(ccNames, c.name);
    if ind >= 0 {
      ghost var named := Named(before[i], before);
      ghost var cs1 := Snapshots(list);
      assert cs1 == before[i := named];
      FoldStep(cs0, fmt, i, before, kept, ind);
      ghost var k := kept[ind];
      assert cs1[k] == before[k] && cs1[i] == named;
      MergeAt(list, out[ind], k, i, fmt);
      assert Snapshots(list) == cs1[k := Merge(cs1[k], cs1[i], fmt)];
      ccNames', out', kept' := ccNames, out, kept;
    } else {
      AppendStep(cs0, fmt, i, before, kept);
      assert (kept + [i])[..|kept|] == kept;
      ccNames', out', kept' := ccNames + [c.name], out + [c], kept + [i];
    }
  }

  /**
   * Lines 505-509: a constraint with a blank name and a type name is given a
   * generated name, computed over the names the whole list holds.
   */
  method NameAt(list: seq<ColumnConstraint>, i: nat)
    requires i < |list| && Distinct(list)
    modifies list[i]
    ensures Snapshots(list) == old(Snapshots(list))[i := Named(old(Snapshots(list))[i], old(Snapshots(list)))]
  {
    ghost var before := Snapshots(list);
    var c := list[i];
    if IsNull(c.name) && !IsNull(c.typeName) {
      var colType := c.typeName.value;
      var generated := GenerateNameForConstraint(colType, list);
      c.name := Some(generated);
      c.generatedName := true;
    }
    assert c.Snapshot() == Named(before[i], before);
    Touched(list, i, before, before[i := Named(before[i], before)]);
  }

  /** Lines 512-528: the repeat at position `i` is folded into the first constraint of its name, at position `k`. */
  method MergeAt(list: seq<ColumnConstraint>, origin: ColumnConstraint, ghost k: nat, i: nat, fmt: Formatter)
    requires k < i < |list| && Distinct(list) && list[k] == origin
    modifies origin
    ensures Snapshots(list) == old(Snapshots(list))[k := Merge(old(Snapshots(list))[k], old(Snapshots(list))[i], fmt)]
  {
    ghost var before := Snapshots(list);
    var rep := list[i];
    if rep.column != None {
      var cols := origin.column;
      if origin.countCols == 1 {
        cols := fmt.ObjectOrNull(cols);
      }
      origin.column := Some(Show(cols) + "," + fmt.formatObject(rep.column.value));
    }
    if rep.refColumn != None {
      var cols := origin.refColumn;
      if origin.countCols == 1 {
        cols := fmt.ObjectOrNull(cols);
      }
      origin.refColumn := Some(Show(cols) + "," + fmt.formatObject(rep.refColumn.value));
    }
    origin.countCols := origin.countCols + 1;
    assert origin.Snapshot() == Merge(before[k], before[i], fmt);
    Touched(list, k, before, before[k := Merge(before[k], before[i], fmt)]);
  }

  /** A step whose (possibly generated) name is new keeps its position. */
  lemma AppendStep(cs0: seq<Constraint>, fmt: Formatter, i: nat, before: seq<Constraint>, kept: seq<nat>)
    requires i < |cs0| && RunTo(cs0, i, fmt) == Pass(before, kept)
    requires IndexOf(KeptNames(before, kept), Named(before[i], before).name) < 0
    ensures RunTo(cs0, i + 1, fmt) == Pass(before[i := Named(before[i], before)], kept + [i])
    ensures KeptNames(before[i := Named(before[i], before)], kept + [i]) ==
            KeptNames(before, kept) + [Named(before[i], before).name]
  {
    var p := RunTo(cs0, i, fmt);
    assert p.kept == kept && p.cs == before;
    assert KeptBelow(kept, i) && |before| == |cs0|;
    DedupFacts.RunToStep(cs0, fmt, i);
    StepAppends(p, i, fmt);
    var c := Named(before[i], before);
    assert KeptNames(before[i := c], kept) == KeptNames(before, kept);
  }

  /** A step whose name is already kept, at kept position `ind`, is folded into that position. */
  lemma FoldStep(cs0: seq<Constraint>, fmt: Formatter, i: nat, before: seq<Constraint>, kept: seq<nat>, ind: nat)
    requires i < |cs0| && RunTo(cs0, i, fmt) == Pass(before, kept)
    requires ind == IndexOf(KeptNames(before, kept), Named(before[i], before).name)
    ensures ind < |kept| && kept[ind] < i
    ensures RunTo(cs0, i + 1, fmt) ==
            Pass(before[i := Named(before[i], before)][kept[ind] := Merge(before[kept[ind]], Named(before[i], before), fmt)], kept)
    ensures KeptNames(before[i := Named(before[i], before)][kept[ind] := Merge(before[kept[ind]], Named(before[i], before), fmt)], kept) ==
            KeptNames(before, kept)
  {
    var p := RunTo(cs0, i, fmt);
    assert p.kept == kept && p.cs == before;
    assert KeptBelow(kept, i) && |before| == |cs0|;
    DedupFacts.RunToStep(cs0, fmt, i);
    StepFoldsAt(p, i, fmt, ind);
  }

  /** `Step` when the name is kept at position `ind` of the kept list. */
  lemma StepFoldsAt(p: Pass, i: nat, fmt: Formatter, ind: nat)
    requires i < |p.cs| && KeptBelow(p.kept, i)
    requires ind == IndexOf(KeptNames(p.cs, p.kept), Named(p.cs[i], p.cs).name)
    ensures ind < |p.kept| && p.kept[ind] < i
    ensures Step(p, i, fmt) ==
            Pass(p.cs[i := Named(p.cs[i], p.cs)][p.kept[ind] := Merge(p.cs[p.kept[ind]], Named(p.cs[i], p.cs), fmt)], p.kept)
    ensures KeptNames(p.cs[i := Named(p.cs[i], p.cs)][p.kept[ind] := Merge(p.cs[p.kept[ind]], Named(p.cs[i], p.cs), fmt)], p.kept) ==
            KeptNames(p.cs, p.kept)
  {
    var c := Named(p.cs[i], p.cs);
    var cs1 := p.cs[i := c];
    SameKeptNames(p.cs, cs1, p.kept);
    var k := p.kept[ind];
    var cs2 := cs1[k := Merge(p.cs[k], c, fmt)];
    assert cs1[k] == p.cs[k];
    SameKeptNames(p.cs, cs2, p.kept);
  }

  /** Kept names depend only on the names at the kept positions. */
  lemma SameKeptNames(cs: seq<Constraint>, ds: seq<Constraint>, kept: seq<nat>)
    requires |cs| == |ds| && KeptBelow(kept, |cs|)
    requires forall a :: 0 <= a < |kept| ==> cs[kept[a]].name == ds[kept[a]].name
    ensures KeptNames(cs, kept) == KeptNames(ds, kept)
  {
  }

  /** After one object of a list of distinct objects changes, the list's values change at that one position. */
  lemma Touched(list: seq<ColumnConstraint>, i: nat, before: seq<Constraint>, after: seq<Constraint>)
    requires i < |list| && Distinct(list) && |before| == |list|
    requires after == before[i := list[i].Snapshot()]
    requires forall j :: 0 <= j < |list| && j != i ==> list[j].Snapshot() == before[j]
    ensures Snapshots(list) == after
  {
  }
}
