/** Assembly of raw two-channel intensities from parsed IDAT files
    (models/RawData.py). Each parsed file is its probe IDs and their mean
    intensities; locating and parsing the files is not part of this model. */
module RawDatas {
  import opened Wrappers
  import opened Seqs
  import ArrayTypes

  /** The output of the IDAT parser: probe IDs and the mean intensity of each. */
  datatype Idat = Idat(ids: seq<int>, means: seq<int>)

  /** What the parser guarantees: one mean per ID. */
  predicate Parsed(f: Idat) {
    |f.ids| == |f.means|
  }

  datatype RawError =
    | MixedArrayTypes
    | UnsupportedArrayType(arrayType: string)
    | DimensionMismatch
    | IndexError

  /** The design inferred for each file from its ID count. */
  function Designs(files: seq<Idat>): (r: seq<ArrayTypes.ArrayType>)
    ensures |r| == |files|
    ensures forall k :: 0 <= k < |files| ==> r[k] == ArrayTypes.FromProbeCount(|files[k].ids|)
  {
    seq(|files|, k requires 0 <= k < |files| => ArrayTypes.FromProbeCount(|files[k].ids|))
  }

  /** `len(set(designs)) == 1` */
  predicate OneDesign(designs: seq<ArrayTypes.ArrayType>) {
    |designs| > 0 && forall k :: 0 <= k < |designs| ==> designs[k] == designs[0]
  }

  /** The positions, from `from` on, whose ID occurs in `keep`, ascending:
      the mask `np.isin(ids, keep)`. */
  function KeepPositions(ids: seq<int>, keep: seq<int>, from: nat): (r: seq<nat>)
    decreases |ids| - from
    ensures forall p :: 0 <= p < |r| ==> from <= r[p] < |ids| && ids[r[p]] in keep
    ensures forall j :: from <= j < |ids| && ids[j] in keep ==> j in r
    ensures forall p, q :: 0 <= p < q < |r| ==> r[p] < r[q]
  {
    if from >= |ids| then []
    else
      var rest := KeepPositions(ids, keep, from + 1);
      if ids[from] in keep then [from] + rest else rest
  }

  /** `ids[np.isin(ids, keep)]`: the IDs that occur in `keep`, in their order. */
  function Common(ids: seq<int>, keep: seq<int>): (r: seq<int>)
    ensures forall x :: x in r <==> x in ids && x in keep
  {
    var pos := KeepPositions(ids, keep, 0);
    var r := seq(|pos|, p requires 0 <= p < |pos| => ids[pos[p]]);
    assert forall x :: x in ids && x in keep ==> x in r by {
      forall x | x in ids && x in keep ensures x in r {
        var j :| 0 <= j < |ids| && ids[j] == x;
        var p :| 0 <= p < |pos| && pos[p] == j;
        assert r[p] == x;
      }
    }
    r
  }

  /** `probe_means[np.isin(illumina_ids, keep)]`: a file's means at the IDs in `keep`. */
  function KeepPresent(f: Idat, keep: seq<int>): (r: seq<int>)
    requires Parsed(f)
    ensures |r| == |KeepPositions(f.ids, keep, 0)|
  {
    var pos := KeepPositions(f.ids, keep, 0);
    seq(|pos|, p requires 0 <= p < |pos| => f.means[pos[p]])
  }

  /** `np.intersect1d`: the IDs in both arrays, ascending and without repeats. */
  function Intersect1d(a: seq<int>, b: seq<int>): (r: seq<int>)
    ensures StrictlyIncreasing(r)
    ensures forall x :: x in r <==> x in a && x in b
  {
    var c := Common(a, b);
    assert forall x :: x in Sort(c) <==> x in multiset(Sort(c)) <==> x in multiset(c) <==> x in c;
    Dedup(Sort(c))
  }

  /** `reduce(np.intersect1d, idss)` */
  function ReduceIntersect(idss: seq<seq<int>>): (r: seq<int>)
    requires |idss| > 0
  {
    if |idss| == 1 then idss[0]
    else Intersect1d(ReduceIntersect(idss[..|idss| - 1]), idss[|idss| - 1])
  }

  /** `x` occurs in every one of the ID arrays. */
  predicate InAll(x: int, idss: seq<seq<int>>) {
    forall k :: 0 <= k < |idss| ==> x in idss[k]
  }

  /** Being in all arrays is being in all but the last, and in the last. */
  lemma InAllSplit(x: int, idss: seq<seq<int>>)
    requires |idss| > 0
    ensures InAll(x, idss) <==> InAll(x, idss[..|idss| - 1]) && x in idss[|idss| - 1]
  {
    var init := idss[..|idss| - 1];
    if InAll(x, init) && x in idss[|idss| - 1] {
      forall k | 0 <= k < |idss|
        ensures x in idss[k]
      {
        if k < |idss| - 1 {
          assert idss[k] == init[k];
        }
      }
    }
  }

  /** For two or more ID arrays, the reduction is the ascending list of the
      IDs they all share. A single array is returned as it is. */
  lemma {:induction false} ReduceIntersectIsCommonIds(idss: seq<seq<int>>)
    requires |idss| >= 2
    ensures StrictlyIncreasing(ReduceIntersect(idss))
    ensures forall x :: x in ReduceIntersect(idss) <==> InAll(x, idss)
  {
    var init := idss[..|idss| - 1];
    var last := idss[|idss| - 1];
    assert ReduceIntersect(idss) == Intersect1d(ReduceIntersect(init), last);
    if |idss| > 2 {
      ReduceIntersectIsCommonIds(init);
    } else {
      assert ReduceIntersect(init) == init[0];
    }
    forall x
      ensures x in ReduceIntersect(idss) <==> InAll(x, idss)
    {
      InAllSplit(x, idss);
      if |idss| == 2 {
        assert InAll(x, init) <==> x in init[0];
      }
    }
  }

  function GrnIds(files: seq<Idat>): (r: seq<seq<int>>)
    ensures |r| == |files|
    ensures forall k :: 0 <= k < |files| ==> r[k] == files[k].ids
  {
    seq(|files|, k requires 0 <= k < |files| => files[k].ids)
  }

  /** `np.array_equal(all_illumina_ids[0], arr)` for every file. */
  predicate AllIdsEqual(files: seq<Idat>) {
    forall k :: 0 <= k < |files| ==> files[k].ids == files[0].ids
  }

  /** Every row has `n` entries. */
  predicate Rectangular(rows: seq<seq<int>>, n: nat) {
    forall k :: 0 <= k < |rows| ==> |rows[k]| == n
  }

  /** The validated design and the aligned intensities, one row per sample. */
  datatype Assembled = Assembled(arrayType: ArrayTypes.ArrayType, ids: seq<int>, grn: seq<seq<int>>, red: seq<seq<int>>)

  function Means(files: seq<Idat>): (r: seq<seq<int>>)
    ensures |r| == |files|
    ensures forall k :: 0 <= k < |files| ==> r[k] == files[k].means
  {
    seq(|files|, k requires 0 <= k < |files| => files[k].means)
  }

  function KeepAll(files: seq<Idat>, keep: seq<int>): (r: seq<seq<int>>)
    requires forall k :: 0 <= k < |files| ==> Parsed(files[k])
    ensures |r| == |files|
    ensures forall k :: 0 <= k < |files| ==> r[k] == KeepPresent(files[k], keep)
  {
    seq(|files|, k requires 0 <= k < |files| => KeepPresent(files[k], keep))
  }

  /** `RawData.__init__` on the parsed green and red files of the samples:
      every file's design must be the same (ValueError otherwise, also when
      there are no files), and supported (Unsupported_array_type, carrying
      the design's value). When all files list the same IDs these are the
      IDs and the means are kept whole. Otherwise the IDs are the reduction
      of the green files' IDs by `np.intersect1d`, and each file keeps the
      means of the IDs among them, in file order; rows that then differ in
      length from the IDs are rejected when the arrays and frames are built. */
  function Assemble(grnFiles: seq<Idat>, redFiles: seq<Idat>): (r: Result<Assembled, RawError>)
    requires |grnFiles| == |redFiles|
    requires forall k :: 0 <= k < |grnFiles| ==> Parsed(grnFiles[k]) && Parsed(redFiles[k])
    ensures r == Err(MixedArrayTypes) <==> !OneDesign(Designs(grnFiles + redFiles))
    ensures OneDesign(Designs(grnFiles + redFiles)) ==>
      var design := Designs(grnFiles + redFiles)[0];
      && (design !in ArrayTypes.ValidArrayTypes() <==> r == Err(UnsupportedArrayType(ArrayTypes.Value(design))))
      && (r.Ok? ==> r.value.arrayType == design)
    ensures r.Ok? ==>
      && r.value.arrayType in ArrayTypes.ValidArrayTypes()
      && |r.value.grn| == |r.value.red| == |grnFiles|
      && Rectangular(r.value.grn, |r.value.ids|) && Rectangular(r.value.red, |r.value.ids|)
    ensures r.Ok? && AllIdsEqual(grnFiles + redFiles) ==>
      r.value.ids == grnFiles[0].ids && r.value.grn == Means(grnFiles) && r.value.red == Means(redFiles)
    ensures r.Ok? && !AllIdsEqual(grnFiles + redFiles) ==>
      && r.value.ids == ReduceIntersect(GrnIds(grnFiles))
      && r.value.grn == KeepAll(grnFiles, r.value.ids)
      && r.value.red == KeepAll(redFiles, r.value.ids)
    ensures r == Err(DimensionMismatch) ==> !AllIdsEqual(grnFiles + redFiles)
  {
    var files := grnFiles + redFiles;
    var designs := Designs(files);
    if !OneDesign(designs) then Err(MixedArrayTypes)
    else if designs[0] !in ArrayTypes.ValidArrayTypes() then Err(UnsupportedArrayType(ArrayTypes.Value(designs[0])))
    else if AllIdsEqual(files) then
      forall k | 0 <= k < |grnFiles|
        ensures |grnFiles[k].means| == |files[0].ids| && |redFiles[k].means| == |files[0].ids|
      {
        assert files[k] == grnFiles[k] && files[|grnFiles| + k] == redFiles[k];
        assert Parsed(grnFiles[k]) && Parsed(redFiles[k]);
        assert files[k].ids == files[0].ids && files[|grnFiles| + k].ids == files[0].ids;
      }
      Ok(Assembled(designs[0], files[0].ids, Means(grnFiles), Means(redFiles)))
    else
      assert |grnFiles| > 0;
      var ids := ReduceIntersect(GrnIds(grnFiles));
      var grn := KeepAll(grnFiles, ids);
      var red := KeepAll(redFiles, ids);
      if Rectangular(grn, |ids|) && Rectangular(red, |ids|) then Ok(Assembled(designs[0], ids, grn, red))
      else Err(DimensionMismatch)
  }

  /** The kept means of `f` line up with `keep`: one per kept ID, and the
      p-th is the file's mean for the p-th kept ID. */
  predicate Aligned(f: Idat, keep: seq<int>)
    requires Parsed(f)
  {
    && |KeepPresent(f, keep)| == |keep|
    && forall p :: 0 <= p < |keep| ==>
         exists j :: 0 <= j < |f.ids| && f.ids[j] == keep[p] && KeepPresent(f, keep)[p] == f.means[j]
  }

  /** Alignment: when a file's IDs ascend and include every kept ID, the
      p-th kept mean is the file's mean for the p-th kept ID. */
  lemma ChannelAlignment(f: Idat, keep: seq<int>)
    requires Parsed(f) && StrictlyIncreasing(f.ids) && StrictlyIncreasing(keep)
    requires forall x :: x in keep ==> x in f.ids
    ensures Aligned(f, keep)
  {
    var pos := KeepPositions(f.ids, keep, 0);
    var kept := Common(f.ids, keep);
    CommonIncreasing(f.ids, keep);
    IncreasingIsUnique(kept, keep);
    forall p | 0 <= p < |keep|
      ensures exists j :: 0 <= j < |f.ids| && f.ids[j] == keep[p] && KeepPresent(f, keep)[p] == f.means[j]
    {
      assert f.ids[pos[p]] == kept[p];
    }
  }

  /** The IDs kept from an ascending array ascend. */
  lemma CommonIncreasing(ids: seq<int>, keep: seq<int>)
    requires StrictlyIncreasing(ids)
    ensures StrictlyIncreasing(Common(ids, keep))
    ensures |Common(ids, keep)| == |KeepPositions(ids, keep, 0)|
    ensures forall p :: 0 <= p < |Common(ids, keep)| ==> Common(ids, keep)[p] == ids[KeepPositions(ids, keep, 0)[p]]
  {
  }

  /** The IDs retained from two or more green files occur in each of them. */
  lemma RetainedInEachGreenFile(grnFiles: seq<Idat>, k: int)
    requires |grnFiles| >= 2 && 0 <= k < |grnFiles|
    ensures StrictlyIncreasing(ReduceIntersect(GrnIds(grnFiles)))
    ensures forall x :: x in ReduceIntersect(GrnIds(grnFiles)) ==> x in grnFiles[k].ids
  {
    var idss := GrnIds(grnFiles);
    ReduceIntersectIsCommonIds(idss);
    forall x | x in ReduceIntersect(idss)
      ensures x in grnFiles[k].ids
    {
      assert InAll(x, idss);
      assert idss[k] == grnFiles[k].ids;
    }
  }

  /** With two or more green files, each green file has all the retained IDs,
      so with ascending IDs every green row is aligned with them. */
  lemma GreenRowsAligned(grnFiles: seq<Idat>, k: int)
    requires |grnFiles| >= 2 && 0 <= k < |grnFiles|
    requires forall i :: 0 <= i < |grnFiles| ==> Parsed(grnFiles[i]) && StrictlyIncreasing(grnFiles[i].ids)
    ensures Aligned(grnFiles[k], ReduceIntersect(GrnIds(grnFiles)))
  {
    RetainedInEachGreenFile(grnFiles, k);
    ChannelAlignment(grnFiles[k], ReduceIntersect(GrnIds(grnFiles)));
  }

  /** A red file that holds every ID shared by all green files holds the
      retained IDs. */
  lemma RedHoldsRetained(grnFiles: seq<Idat>, redFiles: seq<Idat>, k: int)
    requires |grnFiles| >= 2 && 0 <= k < |redFiles|
    requires forall x :: InAll(x, GrnIds(grnFiles)) ==> x in redFiles[k].ids
    ensures forall x :: x in ReduceIntersect(GrnIds(grnFiles)) ==> x in redFiles[k].ids
  {
    ReduceIntersectIsCommonIds(GrnIds(grnFiles));
  }

  /** With two or more samples, a supported common design and ascending IDs
      in every file, assembly fails on dimensions only if some red file
      lacks an ID that all green files share. */
  lemma AssembleSucceedsWhenRedCoversGreen(grnFiles: seq<Idat>, redFiles: seq<Idat>)
    requires |grnFiles| == |redFiles| >= 2
    requires forall k :: 0 <= k < |grnFiles| ==> Parsed(grnFiles[k]) && Parsed(redFiles[k])
    requires forall k :: 0 <= k < |grnFiles| ==> StrictlyIncreasing(grnFiles[k].ids) && StrictlyIncreasing(redFiles[k].ids)
    requires OneDesign(Designs(grnFiles + redFiles))
    requires Designs(grnFiles + redFiles)[0] in ArrayTypes.ValidArrayTypes()
    requires forall x, k :: 0 <= k < |redFiles| && InAll(x, GrnIds(grnFiles)) ==> x in redFiles[k].ids
    ensures Assemble(grnFiles, redFiles).Ok?
  {
    var files := grnFiles + redFiles;
    if !AllIdsEqual(files) {
      var ids := ReduceIntersect(GrnIds(grnFiles));
      forall k | 0 <= k < |grnFiles|
        ensures |KeepPresent(grnFiles[k], ids)| == |ids| && |KeepPresent(redFiles[k], ids)| == |ids|
      {
        RetainedInEachGreenFile(grnFiles, k);
        ChannelAlignment(grnFiles[k], ids);
        RedHoldsRetained(grnFiles, redFiles, k);
        ChannelAlignment(redFiles[k], ids);
      }
      assert Rectangular(KeepAll(grnFiles, ids), |ids|);
      assert Rectangular(KeepAll(redFiles, ids), |ids|);
    }
  }

  /** Selection by position, numpy/pandas style: `s[indices]`, where a
      negative index counts from the end. */
  predicate InRange(indices: seq<int>, n: nat) {
    forall k :: 0 <= k < |indices| ==> -(n as int) <= indices[k] < n
  }

  function Normalise(i: int, n: nat): (r: nat)
    requires -(n as int) <= i < n
    ensures r < n
  {
    if i < 0 then i + n else i
  }

  function Pick<T>(s: seq<T>, indices: seq<int>): (r: seq<T>)
    requires InRange(indices, |s|)
    ensures |r| == |indices|
    ensures forall k :: 0 <= k < |indices| ==> r[k] == s[Normalise(indices[k], |s|)]
  {
    seq(|indices|, k requires 0 <= k < |indices| => s[Normalise(indices[k], |s|)])
  }

  /** `[array[indices] for array in rows]` */
  function PickEach(rows: seq<seq<int>>, n: nat, indices: seq<int>): (r: seq<seq<int>>)
    requires Rectangular(rows, n) && InRange(indices, n)
    ensures |r| == |rows| && Rectangular(r, |indices|)
    ensures forall k :: 0 <= k < |rows| ==> r[k] == Pick(rows[k], indices)
  {
    seq(|rows|, k requires 0 <= k < |rows| => Pick(rows[k], indices))
  }

  /** The transpose `rows.T`: one row per probe, one column per sample. */
  function Transpose(rows: seq<seq<int>>, n: nat): (r: seq<seq<int>>)
    requires Rectangular(rows, n)
    ensures |r| == n && Rectangular(r, |rows|)
    ensures forall p, s :: 0 <= p < n && 0 <= s < |rows| ==> r[p][s] == rows[s][p]
  {
    seq(n, p requires 0 <= p < n => seq(|rows|, s requires 0 <= s < |rows| => rows[s][p]))
  }

  /** Selecting probes commutes with transposing: picking rows of the frame
      is picking entries of every sample's array. */
  lemma PickCommutesWithTranspose(rows: seq<seq<int>>, n: nat, indices: seq<int>)
    requires Rectangular(rows, n) && InRange(indices, n)
    ensures Transpose(PickEach(rows, n, indices), |indices|) == Pick(Transpose(rows, n), indices)
  {
    var lhs := Transpose(PickEach(rows, n, indices), |indices|);
    var rhs := Pick(Transpose(rows, n), indices);
    forall p | 0 <= p < |indices|
      ensures lhs[p] == rhs[p]
    {
      assert |lhs[p]| == |rhs[p]| == |rows|;
    }
  }

  /** Two selections in a row are one selection by the composed positions. */
  lemma PickTwice<T>(s: seq<T>, first: seq<int>, second: seq<int>)
    requires InRange(first, |s|) && InRange(second, |first|)
    ensures InRange(Pick(first, second), |s|)
    ensures Pick(Pick(s, first), second) == Pick(s, Pick(first, second))
  {
  }

  /** `RawData`: the samples, their design, the probe IDs and the intensity
      arrays and frames of both channels. */
  class RawData {
    var sentrixIds: seq<string>
    var arrayType: ArrayTypes.ArrayType
    var ids: seq<int>
    var grn: seq<seq<int>>
    var red: seq<seq<int>>
    var grnFrame: seq<seq<int>>
    var redFrame: seq<seq<int>>
    /** The public `grn` and `red` attributes: set to the frames when the
        object is built, and never reassigned afterwards. */
    var publicGrn: seq<seq<int>>
    var publicRed: seq<seq<int>>

    /** One array per sample in each channel, each as long as `ids`, and
        each frame the transpose of its channel's arrays. */
    predicate Valid()
      reads this
    {
      && |grn| == |red| == |sentrixIds|
      && Rectangular(grn, |ids|) && Rectangular(red, |ids|)
      && grnFrame == Transpose(grn, |ids|) && redFrame == Transpose(red, |ids|)
    }

    /** Stores an assembled result for the named samples, building the frames. */
    constructor (sentrixIds: seq<string>, a: Assembled)
      requires |a.grn| == |a.red| == |sentrixIds|
      requires Rectangular(a.grn, |a.ids|) && Rectangular(a.red, |a.ids|)
      ensures Valid()
      ensures this.sentrixIds == sentrixIds && arrayType == a.arrayType && ids == a.ids
      ensures grn == a.grn && red == a.red
      ensures publicGrn == grnFrame && publicRed == redFrame
    {
      this.sentrixIds := sentrixIds;
      arrayType := a.arrayType;
      ids := a.ids;
      grn := a.grn;
      red := a.red;
      grnFrame := Transpose(a.grn, |a.ids|);
      redFrame := Transpose(a.red, |a.ids|);
      publicGrn := grnFrame;
      publicRed := redFrame;
    }

    /** `keep_only_given_indices`: None leaves everything as it is; positions
        out of range raise IndexError before anything changes; otherwise the
        IDs, both channels' arrays and both frames keep the given positions,
        in the given order, and the samples and design stay. The public
        `grn` and `red` attributes are not reassigned, so they keep the
        unfiltered frames. */
    method KeepOnlyGivenIndices(indices: Option<seq<int>>) returns (r: Result<RawData, RawError>)
      requires Valid()
      modifies this
      ensures Valid()
      ensures r.Ok? ==> r.value == this
      ensures indices.None? ==> r.Ok? && unchanged(this)
      ensures indices.Some? && !InRange(indices.value, |old(ids)|) ==> r == Err(IndexError) && unchanged(this)
      ensures indices.Some? && InRange(indices.value, |old(ids)|) ==>
        && r.Ok?
        && ids == Pick(old(ids), indices.value)
        && grn == PickEach(old(grn), |old(ids)|, indices.value)
        && red == PickEach(old(red), |old(ids)|, indices.value)
        && grnFrame == Pick(old(grnFrame), indices.value)
        && redFrame == Pick(old(redFrame), indices.value)
        && sentrixIds == old(sentrixIds) && arrayType == old(arrayType)
        && publicGrn == old(publicGrn) && publicRed == old(publicRed)
    {
      if indices.None? {
        return Ok(this);
      }
      var idx := indices.value;
      var n := |ids|;
      if !InRange(idx, n) {
        return Err(IndexError);
      }
      var newIds := Pick(ids, idx);
      var newGrn := PickEach(grn, n, idx);
      var newRed := PickEach(red, n, idx);
      PickCommutesWithTranspose(grn, n, idx);
      PickCommutesWithTranspose(red, n, idx);
      assert Transpose(newGrn, |newIds|) == Pick(grnFrame, idx);
      assert Transpose(newRed, |newIds|) == Pick(redFrame, idx);
      ids, grn, red, grnFrame, redFrame := newIds, newGrn, newRed, Pick(grnFrame, idx), Pick(redFrame, idx);
      return Ok(this);
    }
  }
}
