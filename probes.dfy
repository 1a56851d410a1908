/** Manifest filtering (probes_functions.py). A manifest is a sequence of
    rows whose index labels are their positions (the default index); only the
    columns the filters read are kept. */
module Probes {
  import opened Wrappers
  import opened Seqs

  /** `ProbeType`; its values are those of the probes module, which is not
      part of this model. */
  datatype ProbeType = One | Two | SnpOne | SnpTwo | Control

  function ProbeTypeValue(t: ProbeType): string {
    match t
    case One => "I"
    case Two => "II"
    case SnpOne => "SnpI"
    case SnpTwo => "SnpII"
    case Control => "Control"
  }

  /** `Channel` */
  datatype Channel = Red | Grn

  function ChannelValue(c: Channel): string {
    match c
    case Red => "Red"
    case Grn => "Grn"
  }

  /** A run-time argument: a member of the expected enum, or some other value
      (which Python may treat as true or false). */
  datatype Arg<T> = Typed(v: T) | Untyped(truthy: bool)

  datatype ManifestRow = ManifestRow(ilmnId: string, probeType: string, colorChannel: string)

  /** A data frame of manifest rows; `hasIlmnId` says whether it has the IlmnID column. */
  datatype Manifest = Manifest(hasIlmnId: bool, rows: seq<ManifestRow>)

  /** A selected row with its index label. */
  datatype Labelled = Labelled(index: nat, row: ManifestRow)

  datatype ProbeError = TypeError(message: string) | AttributeError | KeyError(message: string)

  /** A row filter: the allowed Probe_Type values, and optionally a
      Color_Channel value and a list of IlmnIDs. */
  datatype Criterion = Criterion(types: set<string>, channel: Option<string>, ids: Option<seq<string>>)

  predicate Matches(row: ManifestRow, c: Criterion) {
    && row.probeType in c.types
    && (c.ids.Some? ==> row.ilmnId in c.ids.value)
    && (c.channel.Some? ==> row.colorChannel == c.channel.value)
  }

  /** The rows of `rows[from..]` that match `c`, with their labels, in row order. */
  function Select(rows: seq<ManifestRow>, from: nat, c: Criterion): seq<Labelled>
    decreases |rows| - from
  {
    if from >= |rows| then []
    else
      var rest := Select(rows, from + 1, c);
      if Matches(rows[from], c) then [Labelled(from, rows[from])] + rest else rest
  }

  function Labels(s: seq<Labelled>): (r: seq<int>)
    ensures |r| == |s|
    ensures forall i :: 0 <= i < |s| ==> r[i] == s[i].index
  {
    seq(|s|, i requires 0 <= i < |s| => s[i].index)
  }

  /** A selection holds exactly the matching rows, each under its own label. */
  lemma {:induction false} SelectMembers(rows: seq<ManifestRow>, from: nat, c: Criterion)
    ensures forall x :: x in Select(rows, from, c) <==>
      from <= x.index < |rows| && x.row == rows[x.index] && Matches(x.row, c)
    decreases |rows| - from
  {
    if from < |rows| {
      SelectMembers(rows, from + 1, c);
    }
  }

  /** A selection keeps row order: its labels strictly increase. */
  lemma {:induction false} SelectIncreasing(rows: seq<ManifestRow>, from: nat, c: Criterion)
    ensures StrictlyIncreasing(Labels(Select(rows, from, c)))
    decreases |rows| - from
  {
    if from < |rows| {
      SelectIncreasing(rows, from + 1, c);
      SelectMembers(rows, from + 1, c);
      var rest := Select(rows, from + 1, c);
      if Matches(rows[from], c) {
        assert forall k :: 0 <= k < |rest| ==> rest[k] in rest;
        assert Labels([Labelled(from, rows[from])] + rest) == [from] + Labels(rest);
      }
    }
  }

  /** A stricter filter selects no more rows, and only rows the looser one selects. */
  lemma {:induction false} SelectNarrower(rows: seq<ManifestRow>, from: nat, narrow: Criterion, wide: Criterion)
    requires forall row :: Matches(row, narrow) ==> Matches(row, wide)
    ensures |Select(rows, from, narrow)| <= |Select(rows, from, wide)|
    ensures forall x :: x in Select(rows, from, narrow) ==> x in Select(rows, from, wide)
    decreases |rows| - from
  {
    SelectMembers(rows, from, narrow);
    SelectMembers(rows, from, wide);
    if from < |rows| {
      SelectNarrower(rows, from + 1, narrow, wide);
    }
  }

  /** The filter of `probe_info_fn` for a checked probe type and channel. */
  function InfoCriterion(probeType: ProbeType, channel: Option<Channel>, indicesToKeep: Option<seq<string>>): Criterion {
    Criterion({ProbeTypeValue(probeType)},
              if channel.Some? then Some(ChannelValue(channel.value)) else None,
              indicesToKeep)
  }

  /** `probe_info_fn`: the rows of the given probe type, further restricted to
      the given channel and to the IlmnIDs of `indices_to_keep` when these are
      given, in manifest order. A probe type that is not a ProbeType, or a
      true value that is not a Channel, raises TypeError; a false value that
      is neither None nor a Channel fails on `.value`; an ID filter on a frame
      without IlmnIDs raises KeyError. */
  function ProbeInfo(manifest: Manifest, probeType: Arg<ProbeType>, channel: Option<Arg<Channel>>,
                     indicesToKeep: Option<seq<string>>): (r: Result<seq<Labelled>, ProbeError>)
    ensures probeType.Untyped? ==> r == Err(TypeError("probe_type is not a valid ProbeType"))
    ensures probeType.Typed? && channel == Some(Untyped(true)) ==> r == Err(TypeError("channel not a valid Channel"))
    ensures r.Ok? <==>
      probeType.Typed? && (channel.Some? ==> channel.value.Typed?) && (indicesToKeep.Some? ==> manifest.hasIlmnId)
    ensures r.Ok? ==>
      && (forall x :: x in r.value <==>
            && x.index < |manifest.rows| && x.row == manifest.rows[x.index]
            && x.row.probeType == ProbeTypeValue(probeType.v)
            && (channel.Some? ==> x.row.colorChannel == ChannelValue(channel.value.v))
            && (indicesToKeep.Some? ==> x.row.ilmnId in indicesToKeep.value))
      && StrictlyIncreasing(Labels(r.value))
  {
    if probeType.Untyped? then Err(TypeError("probe_type is not a valid ProbeType"))
    else if channel == Some(Untyped(true)) then Err(TypeError("channel not a valid Channel"))
    else if indicesToKeep.Some? && !manifest.hasIlmnId then Err(KeyError("IlmnID"))
    else if channel.Some? && channel.value.Untyped? then Err(AttributeError)
    else
      var c := InfoCriterion(probeType.v, if channel.Some? then Some(channel.value.v) else None, indicesToKeep);
      SelectMembers(manifest.rows, 0, c);
      SelectIncreasing(manifest.rows, 0, c);
      Ok(Select(manifest.rows, 0, c))
  }

  /** Restricting by a channel or by an ID list only removes rows. */
  lemma FiltersOnlyRemove(manifest: Manifest, probeType: ProbeType, channel: Option<Channel>,
                          indicesToKeep: Option<seq<string>>)
    requires indicesToKeep.Some? ==> manifest.hasIlmnId
    ensures var narrow := ProbeInfo(manifest, Typed(probeType),
                                    if channel.Some? then Some(Typed(channel.value)) else None, indicesToKeep);
            var wide := ProbeInfo(manifest, Typed(probeType), None, None);
      && narrow.Ok? && wide.Ok?
      && (forall x :: x in narrow.value ==> x in wide.value)
      && |narrow.value| <= |wide.value|
  {
    SelectNarrower(manifest.rows, 0, InfoCriterion(probeType, channel, indicesToKeep), InfoCriterion(probeType, None, None));
  }

  /** Rows of type I or II. */
  const Methylation := Criterion({ProbeTypeValue(One), ProbeTypeValue(Two)}, None, None)

  /** The IlmnIDs of selected rows, in order. */
  function IdsOf(s: seq<Labelled>): (r: seq<string>)
    ensures |r| == |s|
    ensures forall i :: 0 <= i < |s| ==> r[i] == s[i].row.ilmnId
  {
    seq(|s|, i requires 0 <= i < |s| => s[i].row.ilmnId)
  }

  /** `get_methylation_probes`: KeyError without an IlmnID column; otherwise
      the IlmnIDs at the sorted labels of the type-I and type-II rows, which
      are the IlmnIDs of the rows of either type in manifest order. */
  function GetMethylationProbes(frame: Manifest): (r: Result<seq<string>, ProbeError>)
    ensures r.Err? <==> !frame.hasIlmnId
    ensures r.Ok? ==> r.value == IdsOf(Select(frame.rows, 0, Methylation))
  {
    if !frame.hasIlmnId then Err(KeyError("DataFrame must contain 'IlmnID' column"))
    else
      var type1 := ProbeInfo(frame, Typed(One), None, None).value;
      var type2 := ProbeInfo(frame, Typed(Two), None, None).value;
      var idx := Sort(Labels(type1) + Labels(type2));
      MethylationLabels(frame.rows, idx);
      SelectMembers(frame.rows, 0, Methylation);
      assert forall i :: 0 <= i < |idx| ==> Select(frame.rows, 0, Methylation)[i] in Select(frame.rows, 0, Methylation);
      Ok(seq(|idx|, i requires 0 <= i < |idx| => frame.rows[idx[i]].ilmnId))
  }

  /** Sorting the concatenated labels of the type-I and type-II rows gives the
      labels of the rows of either type, in row order. */
  lemma MethylationLabels(rows: seq<ManifestRow>, idx: seq<int>)
    requires idx == Sort(Labels(Select(rows, 0, InfoCriterion(One, None, None)))
                         + Labels(Select(rows, 0, InfoCriterion(Two, None, None))))
    ensures idx == Labels(Select(rows, 0, Methylation))
  {
    SelectUnion(rows, 0, InfoCriterion(One, None, None), InfoCriterion(Two, None, None), Methylation);
    SelectIncreasing(rows, 0, Methylation);
    SortedIsUnique(idx, Labels(Select(rows, 0, Methylation)));
  }

  /** Selecting by either of two exclusive filters yields, as a multiset of
      labels, the two selections together. */
  lemma {:induction false} SelectUnion(rows: seq<ManifestRow>, from: nat, p: Criterion, q: Criterion, pq: Criterion)
    requires forall row :: Matches(row, pq) == (Matches(row, p) || Matches(row, q))
    requires forall row :: !(Matches(row, p) && Matches(row, q))
    ensures multiset(Labels(Select(rows, from, p)) + Labels(Select(rows, from, q)))
         == multiset(Labels(Select(rows, from, pq)))
    decreases |rows| - from
  {
    if from < |rows| {
      SelectUnion(rows, from + 1, p, q, pq);
      var sp := Select(rows, from + 1, p);
      var sq := Select(rows, from + 1, q);
      var spq := Select(rows, from + 1, pq);
      var x := Labelled(from, rows[from]);
      var ih := multiset(Labels(sp) + Labels(sq));
      assert ih == multiset(Labels(spq));
      if Matches(rows[from], p) {
        assert Matches(rows[from], pq) && !Matches(rows[from], q);
        assert Select(rows, from, p) == [x] + sp;
        assert Select(rows, from, q) == sq;
        assert Select(rows, from, pq) == [x] + spq;
        assert Labels([x] + sp) + Labels(sq) == [from] + (Labels(sp) + Labels(sq));
        assert Labels([x] + spq) == [from] + Labels(spq);
      } else if Matches(rows[from], q) {
        assert Matches(rows[from], pq);
        assert Select(rows, from, p) == sp;
        assert Select(rows, from, q) == [x] + sq;
        assert Select(rows, from, pq) == [x] + spq;
        assert Labels([x] + sq) == [from] + Labels(sq);
        assert multiset(Labels(sp) + ([from] + Labels(sq))) == multiset(Labels(sp)) + multiset{from} + multiset(Labels(sq));
        assert Labels([x] + spq) == [from] + Labels(spq);
      } else {
        assert !Matches(rows[from], pq);
      }
    }
  }

  /** The number of methylation probes is the number of type-I rows plus the
      number of type-II rows. */
  lemma MethylationProbeCount(frame: Manifest)
    requires frame.hasIlmnId
    ensures |GetMethylationProbes(frame).value|
         == |ProbeInfo(frame, Typed(One), None, None).value| + |ProbeInfo(frame, Typed(Two), None, None).value|
  {
    var l1 := Labels(Select(frame.rows, 0, InfoCriterion(One, None, None)));
    var l2 := Labels(Select(frame.rows, 0, InfoCriterion(Two, None, None)));
    var idx := Sort(l1 + l2);
    MethylationLabels(frame.rows, idx);
    assert |idx| == |multiset(idx)| == |multiset(l1 + l2)| == |l1 + l2|;
  }
}
