/** Grouping of the reference samples by array design
    (reference_data_functions.py). The annotation CSV is taken as the rows
    its reader yields. */
module ReferenceData {
  import opened ArrayTypes

  /** A row of the reference annotation: its `array_type` and `Sentrix_id`. */
  datatype ReferenceRow = ReferenceRow(arrayType: string, sentrixId: string)

  /** The grouped Sentrix IDs, and the designs for which a warning about too
      few reference samples is logged, in the order they are logged. */
  datatype ReferenceAnnotation = ReferenceAnnotation(groups: map<ArrayType, seq<string>>, warnings: seq<ArrayType>)

  /** The Sentrix IDs of the rows whose `array_type` is the value of `design`,
      in row order, repeats kept. */
  function IdsOfDesign(rows: seq<ReferenceRow>, design: ArrayType): (r: seq<string>)
    ensures |r| <= |rows|
    ensures forall s :: s in r <==> exists row :: row in rows && row.arrayType == Value(design) && row.sentrixId == s
  {
    if |rows| == 0 then []
    else
      var init := rows[..|rows| - 1];
      var last := rows[|rows| - 1];
      assert forall row :: row in rows <==> row in init || row == last;
      IdsOfDesign(init, design) + (if last.arrayType == Value(design) then [last.sentrixId] else [])
  }

  /** The designs among `keys`, in order, whose group is smaller than `minimum`. */
  function ShortGroups(keys: seq<ArrayType>, groups: map<ArrayType, seq<string>>, minimum: int): (r: seq<ArrayType>)
    requires forall d :: d in keys ==> d in groups
    ensures forall d :: d in r <==> d in keys && |groups[d]| < minimum
    ensures |r| <= |keys|
  {
    if |keys| == 0 then []
    else (if |groups[keys[0]]| < minimum then [keys[0]] else []) + ShortGroups(keys[1..], groups, minimum)
  }

  /** `load_reference_data_annotation`: one group per supported design
      (450K, EPIC, EPIC v2, MSA48), each holding the Sentrix IDs of the rows
      of that design; a warning for each group, in that order, with fewer
      than `minimum` samples. The warnings never alter the groups. */
  function LoadReferenceDataAnnotation(rows: seq<ReferenceRow>, minimum: int): (r: ReferenceAnnotation)
    ensures r.groups.Keys == {Illumina450k, IlluminaEpic, IlluminaEpicV2, IlluminaMsa48}
    ensures forall d :: d in r.groups ==> r.groups[d] == IdsOfDesign(rows, d)
    ensures forall d :: d in r.warnings <==> d in r.groups && |r.groups[d]| < minimum
  {
    var groups := DesignGroups(rows);
    var order := [Illumina450k, IlluminaEpic, IlluminaEpicV2, IlluminaMsa48];
    assert forall d :: d in order <==> d in groups;
    ReferenceAnnotation(groups, ShortGroups(order, groups, minimum))
  }

  /** The Sentrix IDs of each supported design, keyed by the design. */
  function DesignGroups(rows: seq<ReferenceRow>): (g: map<ArrayType, seq<string>>)
    ensures g.Keys == {Illumina450k, IlluminaEpic, IlluminaEpicV2, IlluminaMsa48}
    ensures forall d :: d in g ==> g[d] == IdsOfDesign(rows, d)
  {
    map[
      Illumina450k := IdsOfDesign(rows, Illumina450k),
      IlluminaEpic := IdsOfDesign(rows, IlluminaEpic),
      IlluminaEpicV2 := IdsOfDesign(rows, IlluminaEpicV2),
      IlluminaMsa48 := IdsOfDesign(rows, IlluminaMsa48)]
  }

  /** The `array_type` values of the four grouped designs. */
  predicate Grouped(arrayType: string) {
    arrayType in {Value(Illumina450k), Value(IlluminaEpic), Value(IlluminaEpicV2), Value(IlluminaMsa48)}
  }

  /** The Sentrix IDs of the rows of no supported design (27k, mouse,
      unknown or other strings), in row order, repeats kept. */
  function Ungrouped(rows: seq<ReferenceRow>): (r: seq<string>)
    ensures |r| <= |rows|
    ensures forall s :: s in r <==> exists row :: row in rows && !Grouped(row.arrayType) && row.sentrixId == s
  {
    if |rows| == 0 then []
    else
      var init := rows[..|rows| - 1];
      var last := rows[|rows| - 1];
      assert forall row :: row in rows <==> row in init || row == last;
      Ungrouped(init) + (if Grouped(last.arrayType) then [] else [last.sentrixId])
  }

  /** Grouping a concatenation groups each part, in order. */
  lemma {:induction false} IdsOfDesignConcat(a: seq<ReferenceRow>, b: seq<ReferenceRow>, design: ArrayType)
    ensures IdsOfDesign(a + b, design) == IdsOfDesign(a, design) + IdsOfDesign(b, design)
  {
    if |b| == 0 {
      assert a + b == a;
    } else {
      var init := b[..|b| - 1];
      assert (a + b)[..|a + b| - 1] == a + init;
      assert (a + b)[|a + b| - 1] == b[|b| - 1];
      IdsOfDesignConcat(a, init, design);
    }
  }

  /** The group of a design is the in-order filter of the rows: a row
      contributes its Sentrix ID, at its own place and once per occurrence,
      exactly when its `array_type` is the design's value. */
  lemma IdsOfDesignFilters(before: seq<ReferenceRow>, row: ReferenceRow, after: seq<ReferenceRow>, design: ArrayType)
    ensures IdsOfDesign(before + [row] + after, design)
         == IdsOfDesign(before, design)
            + (if row.arrayType == Value(design) then [row.sentrixId] else [])
            + IdsOfDesign(after, design)
  {
    IdsOfDesignConcat(before + [row], after, design);
    IdsOfDesignConcat(before, [row], design);
    assert [row][..0] == [];
  }

  /** Collecting the ungrouped rows of a concatenation collects each part, in order. */
  lemma {:induction false} UngroupedConcat(a: seq<ReferenceRow>, b: seq<ReferenceRow>)
    ensures Ungrouped(a + b) == Ungrouped(a) + Ungrouped(b)
  {
    if |b| == 0 {
      assert a + b == a;
    } else {
      var init := b[..|b| - 1];
      assert (a + b)[..|a + b| - 1] == a + init;
      assert (a + b)[|a + b| - 1] == b[|b| - 1];
      UngroupedConcat(a, init);
    }
  }

  /** The ungrouped IDs are the in-order filter of the rows of no
      supported design. */
  lemma UngroupedFilters(before: seq<ReferenceRow>, row: ReferenceRow, after: seq<ReferenceRow>)
    ensures Ungrouped(before + [row] + after)
         == Ungrouped(before) + (if Grouped(row.arrayType) then [] else [row.sentrixId]) + Ungrouped(after)
  {
    UngroupedConcat(before + [row], after);
    UngroupedConcat(before, [row]);
    assert [row][..0] == [];
  }

  /** The groups partition the rows of supported designs: every row lands in
      exactly one group or, when its design is not supported, in none, so
      the group sizes and the ungrouped rows add up to the row count. */
  lemma {:induction false} GroupsPartitionRows(rows: seq<ReferenceRow>)
    ensures |IdsOfDesign(rows, Illumina450k)| + |IdsOfDesign(rows, IlluminaEpic)|
          + |IdsOfDesign(rows, IlluminaEpicV2)| + |IdsOfDesign(rows, IlluminaMsa48)|
          + |Ungrouped(rows)| == |rows|
  {
    if |rows| > 0 {
      GroupsPartitionRows(rows[..|rows| - 1]);
      ValuesAndNamesDistinct(Illumina450k, IlluminaEpic);
      ValuesAndNamesDistinct(Illumina450k, IlluminaEpicV2);
      ValuesAndNamesDistinct(Illumina450k, IlluminaMsa48);
      ValuesAndNamesDistinct(IlluminaEpic, IlluminaEpicV2);
      ValuesAndNamesDistinct(IlluminaEpic, IlluminaMsa48);
      ValuesAndNamesDistinct(IlluminaEpicV2, IlluminaMsa48);
    }
  }

  /** A design's group never holds a Sentrix ID that appears only on rows of
      another design. */
  lemma GroupsAreSeparate(rows: seq<ReferenceRow>, d: ArrayType, e: ArrayType, s: string)
    requires d != e
    requires forall row :: row in rows && row.sentrixId == s ==> row.arrayType == Value(e)
    ensures s !in IdsOfDesign(rows, d)
  {
    ValuesAndNamesDistinct(d, e);
  }
}
