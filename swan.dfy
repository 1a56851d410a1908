/** The main step of SWAN normalisation (`_preprocess_swan_main` in
    preprocessing_functions.py): per sample and per probe design, the
    intensities are mapped through their ranks onto the averaged sorted
    intensities of a random subset, with a linear extension beyond the
    subset's extreme ranks and a background floor. Intensities are finite
    reals; the result holds NaN where no probe of either design sits. */
module Swan {
  import opened Wrappers
  import opened Floats
  import opened Seqs

  datatype SwanError = IndexError | ValueError

  predicate AllBelow(s: seq<nat>, n: nat) {
    forall j :: 0 <= j < |s| ==> s[j] < n
  }

  predicate Rectangular(rows: seq<seq<real>>, width: nat) {
    forall i :: 0 <= i < |rows| ==> |rows[i]| == width
  }

  /** Fancy indexing `v[idx]`. */
  function PickAt<T>(v: seq<T>, idx: seq<nat>): (r: seq<T>)
    requires AllBelow(idx, |v|)
    ensures |r| == |idx| && forall j :: 0 <= j < |idx| ==> r[j] == v[idx[j]]
  {
    seq(|idx|, j requires 0 <= j < |idx| => v[idx[j]])
  }

  function CountLess(v: seq<real>, a: real): nat {
    if |v| == 0 then 0 else CountLess(v[1..], a) + (if v[0] < a then 1 else 0)
  }

  function CountEqual(v: seq<real>, a: real): nat {
    if |v| == 0 then 0 else CountEqual(v[1..], a) + (if v[0] == a then 1 else 0)
  }

  /** `rankdata` with its default tie rule: tied values share the average
      of the 1-based positions they occupy in sorted order. */
  function Rank(v: seq<real>, k: nat): real
    requires k < |v|
  {
    (CountLess(v, v[k]) as real) + ((CountEqual(v, v[k]) as real) + 1.0) / 2.0
  }

  /** `rankdata(v) / len(v)`. */
  function ScaledRanks(v: seq<real>): (r: seq<real>)
    ensures |r| == |v|
  {
    seq(|v|, k requires 0 <= k < |v| => Rank(v, k) / (|v| as real))
  }

  function Last(s: seq<real>): real
    requires |s| > 0
  {
    s[|s| - 1]
  }

  function MinOf(s: seq<real>): (r: real)
    requires |s| > 0
    ensures r in s && forall j :: 0 <= j < |s| ==> r <= s[j]
  {
    if |s| == 1 then s[0]
    else
      var m := MinOf(s[1..]);
      assert forall j :: 1 <= j < |s| ==> s[j] == s[1..][j - 1];
      if s[0] <= m then s[0] else m
  }

  function MaxOf(s: seq<real>): (r: real)
    requires |s| > 0
    ensures r in s && forall j :: 0 <= j < |s| ==> s[j] <= r
  {
    if |s| == 1 then s[0]
    else
      var m := MaxOf(s[1..]);
      assert forall j :: 1 <= j < |s| ==> s[j] == s[1..][j - 1];
      if s[0] >= m then s[0] else m
  }

  /** The interior of `np.interp`: linear interpolation on the first segment
      [xp[j], xp[j+1]] whose right end lies beyond `x`. */
  function Segment(x: real, xp: seq<real>, fp: seq<real>, j: nat): real
    requires Ascending(xp) && |xp| == |fp| && j + 1 < |xp|
    requires xp[j] <= x < Last(xp)
    decreases |xp| - j
  {
    if x < xp[j + 1] then
      fp[j] + (x - xp[j]) * (fp[j + 1] - fp[j]) / (xp[j + 1] - xp[j])
    else Segment(x, xp, fp, j + 1)
  }

  /** `np.interp(x, xp, fp)` for one point: clamped to fp[0] left of the
      first sample point and to the last fp from the last sample point on. */
  function Interp(x: real, xp: seq<real>, fp: seq<real>): real
    requires Ascending(xp) && |xp| == |fp| > 0
  {
    if x < xp[0] then fp[0]
    else if x >= Last(xp) then Last(fp)
    else Segment(x, xp, fp, 0)
  }

  /** The value at one probe before the floor: the interpolated value, with
      the distance to the subset's largest intensity added above the
      subset's highest rank and the distance to its smallest intensity below
      its lowest rank. */
  function PreFloor(x: real, intensity: real, xp: seq<real>, fp: seq<real>, low: real, high: real): real
    requires Ascending(xp) && |xp| == |fp| > 0
  {
    var v := Interp(x, xp, fp);
    var above := if x > Last(xp) then v + (intensity - high) else v;
    if x < xp[0] then above + (intensity - low) else above
  }

  /** `interp[interp <= 0] = bg_intensity[i]`. */
  function BgFloor(v: real, bg: real): real {
    if v <= 0.0 then bg else v
  }

  /** The adjusted intensities of one design in one sample: `current` holds
      the design's intensities, `subset` the positions of its random subset
      within them, `fp` the averaged sorted subset intensities. */
  function Adjust(current: seq<real>, subset: seq<nat>, fp: seq<real>, bg: real): (r: seq<real>)
    requires AllBelow(subset, |current|) && |subset| == |fp| > 0
    ensures |r| == |current|
  {
    var x := ScaledRanks(current);
    var xp := SortReals(PickAt(x, subset));
    var low := MinOf(PickAt(current, subset));
    var high := MaxOf(PickAt(current, subset));
    seq(|current|, k requires 0 <= k < |current| => BgFloor(PreFloor(x[k], current[k], xp, fp, low, high), bg))
  }

  /** The tail and floor policy at one probe: above the subset's highest
      rank the value before the floor is fp[last] + (intensity - subset
      max), below its lowest rank fp[0] + (intensity - subset min), and in
      between the interpolated value; the highest and lowest ranks bound
      every subset rank; and the adjusted value is the pre-floor value when
      that is positive and the background otherwise. */
  lemma AdjustPolicy(current: seq<real>, subset: seq<nat>, fp: seq<real>, bg: real, k: nat)
    requires AllBelow(subset, |current|) && |subset| == |fp| > 0 && k < |current|
    ensures var x := ScaledRanks(current);
            var xp := SortReals(PickAt(x, subset));
            var low := MinOf(PickAt(current, subset));
            var high := MaxOf(PickAt(current, subset));
            var pre := PreFloor(x[k], current[k], xp, fp, low, high);
      && (forall j :: 0 <= j < |subset| ==> xp[0] <= x[subset[j]] <= Last(xp))
      && (forall j :: 0 <= j < |subset| ==> low <= current[subset[j]] <= high)
      && (x[k] > Last(xp) ==> pre == Last(fp) + (current[k] - high))
      && (x[k] < xp[0] ==> pre == fp[0] + (current[k] - low))
      && (xp[0] <= x[k] <= Last(xp) ==> pre == Interp(x[k], xp, fp))
      && (pre > 0.0 ==> Adjust(current, subset, fp, bg)[k] == pre)
      && (pre <= 0.0 ==> Adjust(current, subset, fp, bg)[k] == bg)
  {
    var x := ScaledRanks(current);
    SortedPickBounds(x, subset);
    PickWithinMinMax(current, subset);
  }

  /** Every picked value lies between the first and last of the picked values sorted. */
  lemma SortedPickBounds(x: seq<real>, subset: seq<nat>)
    requires AllBelow(subset, |x|) && |subset| > 0
    ensures var xp := SortReals(PickAt(x, subset));
      forall j :: 0 <= j < |subset| ==> xp[0] <= x[subset[j]] <= Last(xp)
  {
    var picked := PickAt(x, subset);
    var xp := SortReals(picked);
    forall j | 0 <= j < |subset|
      ensures xp[0] <= x[subset[j]] <= Last(xp)
    {
      assert picked[j] in multiset(xp);
      var t :| 0 <= t < |xp| && xp[t] == picked[j];
      assert xp[0] <= xp[t] <= xp[|xp| - 1];
    }
  }

  /** Every picked value lies between the smallest and largest picked value. */
  lemma PickWithinMinMax(current: seq<real>, subset: seq<nat>)
    requires AllBelow(subset, |current|) && |subset| > 0
    ensures forall j :: 0 <= j < |subset| ==>
              MinOf(PickAt(current, subset)) <= current[subset[j]] <= MaxOf(PickAt(current, subset))
  {
    var picked := PickAt(current, subset);
    forall j | 0 <= j < |subset|
      ensures MinOf(picked) <= current[subset[j]] <= MaxOf(picked)
    {
      assert picked[j] == current[subset[j]];
    }
  }

  /** Every adjusted value is positive or is the sample's background. */
  lemma AdjustPositiveOrBackground(current: seq<real>, subset: seq<nat>, fp: seq<real>, bg: real)
    requires AllBelow(subset, |current|) && |subset| == |fp| > 0
    ensures forall k :: 0 <= k < |current| ==>
              Adjust(current, subset, fp, bg)[k] > 0.0 || Adjust(current, subset, fp, bg)[k] == bg
  {
  }

  /** The last position at which `cols` names column `c`: a fancy-index
      assignment with repeated indices keeps the last value. */
  function LastPos(cols: seq<nat>, c: nat): (r: Option<nat>)
    ensures r.Some? ==>
              && r.value < |cols| && cols[r.value] == c
              && forall j :: r.value < j < |cols| ==> cols[j] != c
    ensures r.None? <==> c !in cols
  {
    if |cols| == 0 then None
    else if cols[|cols| - 1] == c then Some(|cols| - 1)
    else
      assert forall j :: 0 <= j < |cols| - 1 ==> cols[..|cols| - 1][j] == cols[j];
      assert cols == cols[..|cols| - 1] + [cols[|cols| - 1]];
      LastPos(cols[..|cols| - 1], c)
  }

  /** Column `c` after `row[cols] = vals` over a row whose value there was
      `before`. */
  function Over(cols: seq<nat>, vals: seq<real>, c: nat, before: Float): Float
    requires |vals| == |cols|
  {
    match LastPos(cols, c)
    case Some(p) => Finite(vals[p])
    case None => before
  }

  /** The averaged sorted subset intensities of one sample
      (`sorted_subset_intensity[i, :]`). */
  function SubsetMeans(row: seq<real>, one: seq<nat>, two: seq<nat>, subsetOne: seq<nat>, subsetTwo: seq<nat>): (r: seq<real>)
    requires AllBelow(one, |row|) && AllBelow(two, |row|)
    requires AllBelow(subsetOne, |one|) && AllBelow(subsetTwo, |two|) && |subsetOne| == |subsetTwo|
    ensures |r| == |subsetOne|
  {
    var a := SortReals(PickAt(row, PickAt(one, subsetOne)));
    var b := SortReals(PickAt(row, PickAt(two, subsetTwo)));
    seq(|a|, j requires 0 <= j < |a| => (a[j] + b[j]) / 2.0)
  }

  /** The indexing done before the sample loop, whatever the number of
      samples: the subsets index the probe lists, and the columns they select
      index the intensity matrix. */
  predicate SubsetsIndexable(width: nat, one: seq<nat>, two: seq<nat>, subsetOne: seq<nat>, subsetTwo: seq<nat>) {
    && AllBelow(subsetOne, |one|) && AllBelow(subsetTwo, |two|)
    && AllBelow(PickAt(one, subsetOne), width) && AllBelow(PickAt(two, subsetTwo), width)
  }

  /** The well-formedness a sample of the loop needs of its index arguments:
      every probe column of either design indexes the sample's row. */
  predicate Indexable(width: nat, one: seq<nat>, two: seq<nat>, subsetOne: seq<nat>, subsetTwo: seq<nat>) {
    AllBelow(one, width) && AllBelow(two, width) && AllBelow(subsetOne, |one|) && AllBelow(subsetTwo, |two|)
  }

  /** One sample of the result: NaN, overwritten first at the type I
      columns and then at the type II columns. */
  function SwanRow(row: seq<real>, bg: real, one: seq<nat>, two: seq<nat>, subsetOne: seq<nat>, subsetTwo: seq<nat>)
    : (r: seq<Float>)
    requires Indexable(|row|, one, two, subsetOne, subsetTwo)
    requires |subsetOne| == |subsetTwo| > 0
    ensures |r| == |row|
  {
    var fp := SubsetMeans(row, one, two, subsetOne, subsetTwo);
    var adjOne := Adjust(PickAt(row, one), subsetOne, fp, bg);
    var adjTwo := Adjust(PickAt(row, two), subsetTwo, fp, bg);
    Overlay(|row|, one, adjOne, two, adjTwo)
  }

  /** A row of `width` NaN, overwritten at the `one` columns by `adjOne` and
      then at the `two` columns by `adjTwo`. */
  function Overlay(width: nat, one: seq<nat>, adjOne: seq<real>, two: seq<nat>, adjTwo: seq<real>): (r: seq<Float>)
    requires |adjOne| == |one| && |adjTwo| == |two|
    ensures |r| == width
  {
    seq(width, c requires 0 <= c < width => Over(two, adjTwo, c, Over(one, adjOne, c, NaN)))
  }

  /** `_preprocess_swan_main`: an index outside its array is an IndexError,
      subsets of different sizes or empty subsets a ValueError, a background
      vector shorter than the number of samples an IndexError. The probe
      columns of the designs and the background are only indexed inside the
      sample loop, so with no samples only the subsets are checked. The
      first sample's pass reads the type I columns, then interpolates on the
      subset (empty: ValueError), then reads the background and only then
      the type II columns, which fixes which error is raised first. */
  function SwanSpec(
    intensity: seq<seq<real>>, width: nat, bg: seq<real>,
    one: seq<nat>, two: seq<nat>, subsetOne: seq<nat>, subsetTwo: seq<nat>)
    : (r: Result<seq<seq<Float>>, SwanError>)
    requires Rectangular(intensity, width)
    ensures r.Ok? <==>
              && SubsetsIndexable(width, one, two, subsetOne, subsetTwo)
              && |subsetOne| == |subsetTwo|
              && (|intensity| > 0 ==>
                    && Indexable(width, one, two, subsetOne, subsetTwo)
                    && |subsetOne| > 0
                    && |bg| >= |intensity|)
    ensures r == Err(ValueError) <==>
              && SubsetsIndexable(width, one, two, subsetOne, subsetTwo)
              && (|subsetOne| != |subsetTwo| || (|intensity| > 0 && AllBelow(one, width) && |subsetOne| == 0))
    ensures r == Err(IndexError) <==>
              || !SubsetsIndexable(width, one, two, subsetOne, subsetTwo)
              || (&& |subsetOne| == |subsetTwo| && |intensity| > 0
                  && (|| !AllBelow(one, width)
                      || (|subsetOne| > 0 && (!AllBelow(two, width) || |bg| < |intensity|))))
    ensures r.Ok? ==>
              && |r.value| == |intensity|
              && forall i :: 0 <= i < |intensity| ==> |r.value[i]| == width
    ensures r.Ok? ==> forall i :: 0 <= i < |intensity| ==> RowPolicy(r.value[i], one, two, bg[i])
  {
    if !SubsetsIndexable(width, one, two, subsetOne, subsetTwo) then Err(IndexError)
    else if |subsetOne| != |subsetTwo| then Err(ValueError)
    else if |intensity| > 0 && !AllBelow(one, width) then Err(IndexError)
    else if |intensity| > 0 && |subsetOne| == 0 then Err(ValueError)
    else if |intensity| > 0 && (!AllBelow(two, width) || |bg| < |intensity|) then Err(IndexError)
    else
      var rows := seq(|intensity|, i requires 0 <= i < |intensity| =>
        SwanRow(intensity[i], bg[i], one, two, subsetOne, subsetTwo));
      SwanRowsPolicy(intensity, width, bg, one, two, subsetOne, subsetTwo, rows);
      Ok(rows)
  }

  /** A sample of the result: a column holds a value exactly when a probe of
      either design sits there, stays NaN otherwise, and every value is
      positive or the sample's background. */
  predicate RowPolicy(r: seq<Float>, one: seq<nat>, two: seq<nat>, bg: real) {
    forall c :: 0 <= c < |r| ==>
      && ((c in one || c in two) <==> r[c].Finite?)
      && (r[c].NaN? <==> c !in one && c !in two)
      && (r[c].Finite? ==> r[c].v > 0.0 || r[c].v == bg)
  }

  lemma SwanRowsPolicy(
    intensity: seq<seq<real>>, width: nat, bg: seq<real>,
    one: seq<nat>, two: seq<nat>, subsetOne: seq<nat>, subsetTwo: seq<nat>, rows: seq<seq<Float>>)
    requires Rectangular(intensity, width)
    requires |intensity| > 0 ==> Indexable(width, one, two, subsetOne, subsetTwo) && |subsetOne| == |subsetTwo| > 0
    requires |bg| >= |intensity| && |rows| == |intensity|
    requires forall i :: 0 <= i < |intensity| ==>
               rows[i] == SwanRow(intensity[i], bg[i], one, two, subsetOne, subsetTwo)
    ensures forall i :: 0 <= i < |intensity| ==> RowPolicy(rows[i], one, two, bg[i])
  {
    forall i | 0 <= i < |intensity|
      ensures RowPolicy(rows[i], one, two, bg[i])
    {
      SwanRowPolicy(intensity[i], bg[i], one, two, subsetOne, subsetTwo);
    }
  }

  /** One sample: the columns of neither design stay NaN, the others hold a
      positive value or the background. */
  lemma SwanRowPolicy(row: seq<real>, bg: real, one: seq<nat>, two: seq<nat>, subsetOne: seq<nat>, subsetTwo: seq<nat>)
    requires Indexable(|row|, one, two, subsetOne, subsetTwo)
    requires |subsetOne| == |subsetTwo| > 0
    ensures RowPolicy(SwanRow(row, bg, one, two, subsetOne, subsetTwo), one, two, bg)
  {
    var fp := SubsetMeans(row, one, two, subsetOne, subsetTwo);
    var adjOne := Adjust(PickAt(row, one), subsetOne, fp, bg);
    var adjTwo := Adjust(PickAt(row, two), subsetTwo, fp, bg);
    AdjustPositiveOrBackground(PickAt(row, one), subsetOne, fp, bg);
    AdjustPositiveOrBackground(PickAt(row, two), subsetTwo, fp, bg);
    OverlayPolicy(|row|, one, adjOne, two, adjTwo, bg);
  }

  /** Overlaying values that are each positive or the background gives a row
      that keeps the policy. */
  lemma OverlayPolicy(width: nat, one: seq<nat>, adjOne: seq<real>, two: seq<nat>, adjTwo: seq<real>, bg: real)
    requires |adjOne| == |one| && |adjTwo| == |two|
    requires forall k :: 0 <= k < |adjOne| ==> adjOne[k] > 0.0 || adjOne[k] == bg
    requires forall k :: 0 <= k < |adjTwo| ==> adjTwo[k] > 0.0 || adjTwo[k] == bg
    ensures RowPolicy(Overlay(width, one, adjOne, two, adjTwo), one, two, bg)
  {
    var r := Overlay(width, one, adjOne, two, adjTwo);
    forall c | 0 <= c < width
      ensures ((c in one || c in two) <==> r[c].Finite?)
              && (r[c].NaN? <==> c !in one && c !in two)
              && (r[c].Finite? ==> r[c].v > 0.0 || r[c].v == bg)
    {
      assert r[c] == Over(two, adjTwo, c, Over(one, adjOne, c, NaN));
    }
  }

  /** Writing one more column extends `Over` by that column. */
  lemma OverExtend(cols: seq<nat>, vals: seq<real>, k: nat, c: nat, before: Float)
    requires |vals| == |cols| && k < |cols|
    ensures Over(cols[..k + 1], vals[..k + 1], c, before)
            == if c == cols[k] then Finite(vals[k]) else Over(cols[..k], vals[..k], c, before)
  {
    assert cols[..k + 1][..k] == cols[..k];
  }

  /** `swan[i, cols] = vals`: later duplicates win, other cells keep their
      values. */
  method WriteColumns(swan: array2<Float>, i: nat, cols: seq<nat>, vals: seq<real>)
    requires i < swan.Length0 && AllBelow(cols, swan.Length1) && |vals| == |cols|
    modifies swan
    ensures forall i', c :: 0 <= i' < swan.Length0 && 0 <= c < swan.Length1 ==>
              swan[i', c] == if i' == i then Over(cols, vals, c, old(swan[i', c])) else old(swan[i', c])
  {
    var k := 0;
    while k < |cols|
      invariant 0 <= k <= |cols|
      invariant forall i', c :: 0 <= i' < swan.Length0 && 0 <= c < swan.Length1 ==>
                  swan[i', c] == if i' == i then Over(cols[..k], vals[..k], c, old(swan[i', c])) else old(swan[i', c])
    {
      forall c | 0 <= c < swan.Length1
        ensures Over(cols[..k + 1], vals[..k + 1], c, old(swan[i, c]))
                == if c == cols[k] then Finite(vals[k]) else Over(cols[..k], vals[..k], c, old(swan[i, c]))
      {
        OverExtend(cols, vals, k, c, old(swan[i, c]));
      }
      swan[i, cols[k]] := Finite(vals[k]);
      k := k + 1;
    }
    assert cols[..k] == cols && vals[..k] == vals;
  }

  /** `_preprocess_swan_main`: starts from an all-NaN result and, sample by
      sample, writes the adjusted type I and then type II intensities into
      their columns. */
  method PreprocessSwanMain(
    intensity: seq<seq<real>>, width: nat, bg: seq<real>,
    one: seq<nat>, two: seq<nat>, subsetOne: seq<nat>, subsetTwo: seq<nat>)
    returns (r: Result<seq<seq<Float>>, SwanError>)
    requires Rectangular(intensity, width)
    ensures r == SwanSpec(intensity, width, bg, one, two, subsetOne, subsetTwo)
  {
    if !SubsetsIndexable(width, one, two, subsetOne, subsetTwo) {
      return Err(IndexError);
    }
    if |subsetOne| != |subsetTwo| {
      return Err(ValueError);
    }
    if |intensity| > 0 && !AllBelow(one, width) {
      return Err(IndexError);
    }
    if |intensity| > 0 && |subsetOne| == 0 {
      return Err(ValueError);
    }
    if |intensity| > 0 && (!AllBelow(two, width) || |bg| < |intensity|) {
      return Err(IndexError);
    }
    var n := |intensity|;
    var swan := new Float[n, width]((i, c) => NaN);
    for i := 0 to n
      invariant forall i', c :: 0 <= i' < n && 0 <= c < width ==>
                  swan[i', c] == if i' < i then SwanRow(intensity[i'], bg[i'], one, two, subsetOne, subsetTwo)[c] else NaN
    {
      WriteSample(swan, i, intensity[i], bg[i], one, two, subsetOne, subsetTwo);
    }
    var rows := Cells(swan);
    ghost var expected := seq(n, i requires 0 <= i < n =>
      SwanRow(intensity[i], bg[i], one, two, subsetOne, subsetTwo));
    SameCells(rows, expected, width);
    return Ok(rows);
  }

  /** The contents of the result array, row by row. */
  method Cells(swan: array2<Float>) returns (rows: seq<seq<Float>>)
    ensures |rows| == swan.Length0
    ensures forall i :: 0 <= i < |rows| ==> |rows[i]| == swan.Length1
    ensures forall i, c :: 0 <= i < swan.Length0 && 0 <= c < swan.Length1 ==> rows[i][c] == swan[i, c]
  {
    rows := seq(swan.Length0, i requires 0 <= i < swan.Length0 reads swan =>
      seq(swan.Length1, c requires 0 <= c < swan.Length1 reads swan => swan[i, c]));
  }

  lemma SameCells(a: seq<seq<Float>>, b: seq<seq<Float>>, width: nat)
    requires |a| == |b|
    requires forall i :: 0 <= i < |a| ==> |a[i]| == width && |b[i]| == width
    requires forall i, c :: 0 <= i < |a| && 0 <= c < width ==> a[i][c] == b[i][c]
    ensures a == b
  {
    forall i | 0 <= i < |a|
      ensures a[i] == b[i]
    {
    }
  }

  /** One iteration of the sample loop: the type I and then the type II
      columns of sample `i`, the NaN cells of that row being overwritten. */
  method WriteSample(
    swan: array2<Float>, i: nat, row: seq<real>, bg: real,
    one: seq<nat>, two: seq<nat>, subsetOne: seq<nat>, subsetTwo: seq<nat>)
    requires i < swan.Length0 && swan.Length1 == |row|
    requires Indexable(|row|, one, two, subsetOne, subsetTwo) && |subsetOne| == |subsetTwo| > 0
    requires forall c :: 0 <= c < swan.Length1 ==> swan[i, c] == NaN
    modifies swan
    ensures forall i', c :: 0 <= i' < swan.Length0 && 0 <= c < swan.Length1 ==>
              swan[i', c] == if i' == i then SwanRow(row, bg, one, two, subsetOne, subsetTwo)[c] else old(swan[i', c])
  {
    var fp := SubsetMeans(row, one, two, subsetOne, subsetTwo);
    var adjOne := Adjust(PickAt(row, one), subsetOne, fp, bg);
    WriteColumns(swan, i, one, adjOne);
    var adjTwo := Adjust(PickAt(row, two), subsetTwo, fp, bg);
    WriteColumns(swan, i, two, adjTwo);
  }
}
