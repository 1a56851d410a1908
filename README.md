# CnQuant dependencies in Dafny

This project models the shared core of the CnQuant methylation-array tools
(`cnquant_dependencies`) and proves properties of that model. It covers:

- the array-design enumeration, and the inference of a design from the number
  of probes on an IDAT file;
- the downsizing targets and the preprocessing-method enumeration, with their
  string lookups;
- the guards and policies of the intensity normalisations:
  - the beta values of `_get_beta`;
  - the Huber M-estimate of location;
  - the normal-exponential background correction (`normexp_signal` and
    `normexp_get_xs`);
  - the main step of SWAN;
- filtering of the Illumina manifest by probe type, channel and ID list;
- assembly of the raw two-channel intensities from parsed IDAT files, and the
  in-place probe selection of `RawData.keep_only_given_indices`;
- the genome coordinate table: offsets, centres, centromere offsets and total
  length;
- loading and querying the annotated reference cases;
- grouping of the reference samples by design;
- the inversion of the available summary plots into per-class options;
- the per-sample status record, its file name and its read-back checks;
- the bin-settings label.

Each source file has one Dafny module, except
`preprocessing_functions.py`, which is split into four: `Huber`, `Normexp`,
`BetaValues` and `Swan`. Four helper modules support them:

- `Wrappers`: `Option` and `Result`;
- `Text`: ASCII case mapping, decimal rendering, first-occurrence replacement;
- `Seqs`: sorting, de-duplication, order predicates;
- `Floats`: IEEE special values.

Python exceptions are `Err` values of a `Result`. A numpy float is
`Floats.Float`: a finite real, NaN, or an infinity. NaN propagates through
the arithmetic and makes every comparison false, as in IEEE 754.

The transcendental functions of the normal-exponential model are parameters
of the model. These are `exp`, `log`, and the normal log-density and
log-survival function at 0. Parsed files and CSV tables are sequences of rows.
File outcomes, such as a missing file, a permission failure or invalid JSON,
are cases of a datatype.

The loops of the source are methods proved against specification functions:
- the Huber iteration;
- the fitting and signal loops of `normexp_get_xs`;
- the nested write loops of SWAN into a two-dimensional array;
- the nested insertions of the plot inversion.

Objects whose fields the source reassigns (`RawData`, `AnnotatedCasesLoader`)
are classes.

## Model

| member | source | states |
|---|---|---|
| ArrayTypes.ValuesAndNamesDistinct | cnquant_dependencies/enums/ArrayType.py:32-38 | distinct members have distinct enum values and distinct enum names |
| ArrayTypes.MembersList | cnquant_dependencies/enums/ArrayType.py:91-94 | all seven members, each exactly once, in declaration order |
| ArrayTypes.ValidArrayTypes | cnquant_dependencies/enums/ArrayType.py:40-48 | exactly 450K, EPIC, EPIC v2 and MSA48 are supported, in declaration order; 27K, mouse and unknown are not |
| ArrayTypes.FromProbeCount | cnquant_dependencies/enums/ArrayType.py:53-77 | a count below 55200 or above 1108000, including zero and negatives, gives UNKNOWN without raising |
| ArrayTypes.FromProbeCountRanges | cnquant_dependencies/enums/ArrayType.py:56-77 | each design is returned exactly for its inclusive ranges (450K 622000..623000; EPIC 1050000..1053000 or 1032000..1033000; EPIC v2 1100000..1108000; MSA48 384400..384600; 27K 55200..55400; mouse 315000..362000) |
| ArrayTypes.ProbeCountRulesDisjoint | cnquant_dependencies/enums/ArrayType.py:56-75 | the seven ranges are pairwise disjoint |
| ArrayTypes.LookupOrderIrrelevant | cnquant_dependencies/enums/ArrayType.py:56-77 | for disjoint ranges, the first-match lookup gives the same design under any reordering of the rules |
| ArrayTypes.FromProbeCountIsFirstMatch | cnquant_dependencies/enums/ArrayType.py:56-77 | the chain of range checks is the first-match lookup over the range table |
| ArrayTypes.FromProbeCountOrderIrrelevant | cnquant_dependencies/enums/ArrayType.py:56-77 | checking the ranges in any order gives the same design as the source's order |
| ArrayTypes.GetMemberFromString | cnquant_dependencies/enums/ArrayType.py:97-120 | the member whose value is the string; otherwise the member whose name is the upper-cased string; a ValueError exactly when neither exists |
| ArrayTypes.GetMemberFromValue | cnquant_dependencies/enums/ArrayType.py:97-120 | round trip: the value of every member finds that member |
| ArrayTypes.GetMemberFromAnyCaseName | cnquant_dependencies/enums/ArrayType.py:111-118 | every casing of a member's name finds that member |
| ArrayTypes.ToString | cnquant_dependencies/enums/ArrayType.py:50-51 | `str(a)` is a string from which `get_member_from_string` recovers `a` |
| ArrayTypes.PrettyArrayTypeString | cnquant_dependencies/enums/ArrayType.py:122-132 | "Unknown Array Type" exactly for mouse and unknown |
| ArrayTypes.PrettyArrayTypeStringInjective | cnquant_dependencies/enums/ArrayType.py:122-132 | only mouse and unknown share a label; every other design has its own |
| ArrayTypes.ValueToKeyMapping | cnquant_dependencies/enums/ArrayType.py:86-89 | the keys are the values of the listed designs, and each maps to that design's name |
| CommonArrayTypes.ValueIsName | cnquant_dependencies/CommonArrayType.py:7-8 | every downsizing target's value is its name, so value-to-name mapping over them is the identity |
| CommonArrayTypes.GetArrayTypes | cnquant_dependencies/CommonArrayType.py:10-27 | every listed design is supported; no list has duplicates; both lists hold 450K, EPIC and EPIC v2; MSA48 is listed exactly for the MSA48 target |
| CommonArrayTypes.Hm450kIsMsa48WithoutMsa48 | cnquant_dependencies/CommonArrayType.py:13-25 | the HM450K list is the MSA48 list with MSA48 removed, order kept |
| PreprocessingMethods.List | cnquant_dependencies/PreprocessingMethods.py:6-13 | the four members, each once, in declaration order |
| PreprocessingMethods.ValueInjective | cnquant_dependencies/PreprocessingMethods.py:6-9 | no two members share a value |
| PreprocessingMethods.GetEnumFromString | cnquant_dependencies/PreprocessingMethods.py:15-19 | Some exactly when a member's value equals the lower-cased string, and then that member; None otherwise, never an error |
| PreprocessingMethods.GetEnumIgnoresCase | cnquant_dependencies/PreprocessingMethods.py:17-18 | every casing of a member's value finds that member |
| PreprocessingMethods.GetEnumRoundTrip | cnquant_dependencies/PreprocessingMethods.py:16-18 | the value of every member finds that member |
| BinSettings.MakeBinSettingsString | cnquant_dependencies/bin_settings_functions.py:1-18 | a TypeError for a bin size that is neither str nor int, checked first, then for the minimum probe count; otherwise a label whose length is the prefix, both renderings and the infix |
| BinSettings.IntAndDecimalStringAgree | cnquant_dependencies/bin_settings_functions.py:18 | an int and its decimal string give the same label, in either argument |
| BinSettings.Example1000And2 | cnquant_dependencies/bin_settings_functions.py:18 | (1000, "2") and ("1000", 2) both give "bin_size_1000_min_probes_per_bin_2" |
| BinSettings.NatToStringInjective | cnquant_dependencies/bin_settings_functions.py:18 | distinct natural numbers render as distinct decimal strings |
| BinSettings.LabelDeterminesSettings | cnquant_dependencies/bin_settings_functions.py:18 | for natural numbers, equal labels come only from equal bin sizes and equal minimum probe counts |
| Paths.GetStatusJsonPath | cnquant_dependencies/paths_functions.py:4-19 | the path joins the sample directory with a file name that is "<id>_status.json" exactly for NO_DOWNSIZING, and "<id>_status_<target>.json" otherwise |
| Paths.StatusJsonPathInjective | cnquant_dependencies/paths_functions.py:15-18 | for one sample and directory, different downsizing targets never share a status file |
| StatusJsons.OrNA | cnquant_dependencies/models/StatusJson.py:106-107 | None renders as "N/A", and any other value as itself |
| StatusJsons.MakeStatusJson | cnquant_dependencies/models/StatusJson.py:95-127 | the record's exact key set; the completion flag is "True" only for a True status, so None gives "False"; None for the array type, the failure reason, the reference IDs and both timings gives "N/A"; the settings object holds the rendered bin size, the minimum probe count and the downsizing target; the input object holds the directory, both sizes with " MB", the reference IDs and the method; the timing object holds both timings |
| StatusJsons.LoadAnalysisStatusJson | cnquant_dependencies/models/StatusJson.py:180-209 | {} for a missing file and the object for a JSON object; a ValueError exactly for invalid JSON or a non-object; an OSError exactly for a read failure |
| StatusJsons.CheckIfPreviousAnalysisWasSuccessful | cnquant_dependencies/models/StatusJson.py:211-247 | fails only for a permission error; true exactly when the file is an object whose flag, lower-cased, is "true" |
| StatusJsons.GetArrayType | cnquant_dependencies/models/StatusJson.py:251-283 | fails only for a permission error; "N/A" for a missing, unreadable or undecodable file, for a document that is not an object and for a stored value that is not a string; "n/a" for an object without the key; the stored string lower-cased when there is one |
| StatusJsons.CompletionFlagRoundTrip | cnquant_dependencies/models/StatusJson.py:104 | a record written with completion status True reads back as successful; False or None reads back as unsuccessful |
| StatusJsons.ArrayTypeRoundTrip | cnquant_dependencies/models/StatusJson.py:106 | the stored array type reads back lower-cased, and None reads back as "n/a" |
| StatusJsons.SaveToDisk | cnquant_dependencies/models/StatusJson.py:129-161 | a permission failure is raised; another failure is logged and the call returns, leaving the status file as it was when the failure comes before `open`, and emptied when it comes after; on success `make_status_json` is written to "<id>_status<suffix>.json" in the output directory |
| StatusJsons.SaveThenCheck | cnquant_dependencies/models/StatusJson.py:129-178 | saving with the suffix for a downsizing target writes exactly the file `get_status_json_path` looks up, and reading its flag returns the saved completion status |
| Genomes.Lens | cnquant_dependencies/models/Genome.py:3-108 | the `len` column of the chromosome table |
| Genomes.Cumsum | cnquant_dependencies/models/Genome.py:127 | the running totals have the input's length |
| Genomes.CumsumIsPrefixSums | cnquant_dependencies/models/Genome.py:127 | each running total is the sum of the prefix that ends at it |
| Genomes.Offsets | cnquant_dependencies/models/Genome.py:127 | the offset of chromosome i is the sum of the lengths before it |
| Genomes.BuildGenome | cnquant_dependencies/models/Genome.py:124-133 | each row keeps its table columns; offset is the sum of the earlier lengths; center is offset + len div 2; the centromere offset is offset + (start + end) div 2; length is the sum of all lengths |
| Genomes.NewGenome | cnquant_dependencies/models/Genome.py:124-133 | the genome of the fixed 24-row table |
| Genomes.GenomeLength | cnquant_dependencies/models/Genome.py:139-140 | `len(genome)` is the stored total length |
| Genomes.OffsetRecurrence | cnquant_dependencies/models/Genome.py:127 | offset[0] = 0 and offset[i+1] = offset[i] + len[i] |
| Genomes.LengthIsEndOfLastChromosome | cnquant_dependencies/models/Genome.py:133 | the total length equals offset[last] + len[last] |
| Genomes.ChromosomeTableWellFormed | cnquant_dependencies/models/Genome.py:3-108 | the table has 24 rows, chr1 through chr22, then chrX and chrY; every length is positive, and every centromere satisfies start < end <= len |
| Genomes.OffsetsIncreasing | cnquant_dependencies/models/Genome.py:127 | in a well-formed table the offsets strictly increase |
| Genomes.CentresWithinChromosome | cnquant_dependencies/models/Genome.py:128-132 | the centre and the centromere offset of every chromosome lie in [offset, offset + len) |
| Genomes.ChromosomesWithinGenome | cnquant_dependencies/models/Genome.py:127-133 | every chromosome ends within the genome's total length |
| Probes.Labels | cnquant_dependencies/probes_functions.py:69-75 | the index labels of selected rows, in order |
| Probes.SelectMembers | cnquant_dependencies/probes_functions.py:38-51 | a selection holds exactly the matching rows, each with its own index label |
| Probes.SelectIncreasing | cnquant_dependencies/probes_functions.py:38-51 | a selection keeps manifest row order: its labels strictly increase |
| Probes.SelectNarrower | cnquant_dependencies/probes_functions.py:38-51 | a stricter filter selects no more rows, and only rows the looser one selects |
| Probes.ProbeInfo | cnquant_dependencies/probes_functions.py:8-51 | a TypeError for a probe type that is not a ProbeType, then for a truthy channel that is not a Channel; otherwise exactly the rows of that type, also of the given channel and with an IlmnID in the kept IDs when those are given, in row order |
| Probes.FiltersOnlyRemove | cnquant_dependencies/probes_functions.py:38-51 | adding a channel or an ID filter only removes rows |
| Probes.IdsOf | cnquant_dependencies/probes_functions.py:78-80 | the IlmnIDs of the selected rows, in order |
| Probes.GetMethylationProbes | cnquant_dependencies/probes_functions.py:54-80 | a KeyError exactly when the IlmnID column is missing; otherwise the IlmnIDs of the type I and type II rows, in manifest order |
| Probes.MethylationLabels | cnquant_dependencies/probes_functions.py:69-80 | sorting the concatenated type I and type II labels gives the labels of the type I or II rows, in manifest order |
| Probes.SelectUnion | cnquant_dependencies/probes_functions.py:69-75 | selecting by two exclusive filters gives, as a multiset of labels, the selection by their union |
| Probes.MethylationProbeCount | cnquant_dependencies/probes_functions.py:69-80 | the number of methylation probes is the number of type I rows plus the number of type II rows |
| RawDatas.Designs | cnquant_dependencies/models/RawData.py:63-66 | the design of each file is inferred from that file's ID count |
| RawDatas.KeepPositions | cnquant_dependencies/models/RawData.py:99-110 | exactly the positions whose ID is kept, ascending |
| RawDatas.Common | cnquant_dependencies/models/RawData.py:99-110 | the IDs that occur in the kept list, in file order |
| RawDatas.KeepPresent | cnquant_dependencies/models/RawData.py:99-110 | a file's means at the kept positions, one per kept position |
| RawDatas.Intersect1d | cnquant_dependencies/models/RawData.py:85-97 | the IDs in both arrays, strictly ascending |
| RawDatas.ReduceIntersectIsCommonIds | cnquant_dependencies/models/RawData.py:85-97 | for two or more green files, the reduction is the ascending list of the IDs common to all of them |
| RawDatas.Assemble | cnquant_dependencies/models/RawData.py:44-130 | ValueError exactly when the files' designs differ; an unsupported common design is rejected with its value; with equal ID arrays, the first array and the unfiltered means; otherwise the green intersection, and each file's means at those IDs |
| RawDatas.ChannelAlignment | cnquant_dependencies/models/RawData.py:99-110 | for ascending IDs that include every kept ID, entry p of the kept means is the mean of the p-th kept ID |
| RawDatas.GreenRowsAligned | cnquant_dependencies/models/RawData.py:85-110 | with two or more green files, every green row has exactly one entry per retained ID |
| RawDatas.AssembleSucceedsWhenRedCoversGreen | cnquant_dependencies/models/RawData.py:63-130 | a supported common design with ascending IDs, where every red file holds the common green IDs, assembles without error |
| RawDatas.Pick | cnquant_dependencies/models/RawData.py:142-151 | selection by positions, negative positions counted from the end |
| RawDatas.PickEach | cnquant_dependencies/models/RawData.py:142-151 | the same positions are selected from every sample's array |
| RawDatas.Transpose | cnquant_dependencies/models/RawData.py:112-118 | the probe-by-sample frame of the sample arrays |
| RawDatas.PickCommutesWithTranspose | cnquant_dependencies/models/RawData.py:142-151 | selecting rows of the frame equals rebuilding the frame from the selected arrays |
| RawDatas.PickTwice | cnquant_dependencies/models/RawData.py:142-151 | two selections in a row equal one selection by the composed positions |
| RawDatas.RawData.constructor | cnquant_dependencies/models/RawData.py:44-130 | the samples, design, IDs and intensity arrays are stored, with frames of matching shape |
| RawDatas.RawData.KeepOnlyGivenIndices | cnquant_dependencies/models/RawData.py:132-152 | None changes nothing; out-of-range positions raise IndexError and change nothing; otherwise IDs, both arrays and both frames keep the given positions in the given order, with samples and design untouched, and self is returned; the public `grn` and `red` attributes are not reassigned and keep the unfiltered frames |
| AnnotatedCases.LoadAnnotatedCases | cnquant_dependencies/models/AnnotatedCasesLoader.py:66-89 | exactly the rewritten rows that have a class, no NaN and a class outside the blacklist |
| AnnotatedCases.BlacklistPrecedesRewrite | cnquant_dependencies/models/AnnotatedCasesLoader.py:78-88 | the filter sees the class as written, so "A/B" survives a blacklist holding "A_B" and loads as "A_B" |
| AnnotatedCases.OnlyFirstSlashRewritten | cnquant_dependencies/models/AnnotatedCasesLoader.py:83-88 | "A/B/C" loads as "A_B/C" |
| AnnotatedCases.RewriteRemovesOneSlash | cnquant_dependencies/models/AnnotatedCasesLoader.py:83-88 | the rewrite removes exactly one "/" when there is one, and otherwise leaves the class unchanged |
| AnnotatedCases.Classes | cnquant_dependencies/models/AnnotatedCasesLoader.py:112-119 | the class column of the annotation |
| AnnotatedCases.SentrixIdsOf | cnquant_dependencies/models/AnnotatedCasesLoader.py:146-165 | the Sentrix IDs of the cases whose class is selected, or of all cases when nothing is selected |
| AnnotatedCases.AnnotatedCasesLoader.constructor | cnquant_dependencies/models/AnnotatedCasesLoader.py:35-64 | stores the blacklist and loads the annotation |
| AnnotatedCases.AnnotatedCasesLoader.UpdateAnnotatedCases | cnquant_dependencies/models/AnnotatedCasesLoader.py:91-95 | the annotation becomes a fresh load, and the blacklist is unchanged |
| AnnotatedCases.AnnotatedCasesLoader.GetMethylationClassesSelection | cnquant_dependencies/models/AnnotatedCasesLoader.py:97-131 | without a choice, the distinct classes present; a present choice gives [choice]; an absent one gives ValueError |
| AnnotatedCases.AnnotatedCasesLoader.GetAnnotatedSentrixIds | cnquant_dependencies/models/AnnotatedCasesLoader.py:133-165 | the distinct IDs of all cases, or of the cases of the selected classes; an empty selection gives [] |
| ReferenceData.IdsOfDesign | cnquant_dependencies/reference_data_functions.py:27-58 | the Sentrix IDs of exactly the rows whose array_type is the design's value, in row order |
| ReferenceData.ShortGroups | cnquant_dependencies/reference_data_functions.py:67-77 | exactly the designs whose group is smaller than the minimum |
| ReferenceData.LoadReferenceDataAnnotation | cnquant_dependencies/reference_data_functions.py:7-77 | exactly four keys (450K, EPIC, EPIC v2, MSA48), each the IDs of its design; a warning exactly for groups shorter than the minimum, which leaves the groups unchanged |
| ReferenceData.Ungrouped | cnquant_dependencies/reference_data_functions.py:27-58 | an ID is listed exactly when some row of no supported design carries it |
| ReferenceData.IdsOfDesignConcat | cnquant_dependencies/reference_data_functions.py:27-58 | the group of a concatenation of rows is the concatenation of the parts' groups |
| ReferenceData.IdsOfDesignFilters | cnquant_dependencies/reference_data_functions.py:27-58 | each row contributes its ID to a design's group at its own place, once per occurrence, exactly when its array_type is that design's value |
| ReferenceData.UngroupedConcat | cnquant_dependencies/reference_data_functions.py:27-58 | the ungrouped IDs of a concatenation are those of the parts, in order |
| ReferenceData.UngroupedFilters | cnquant_dependencies/reference_data_functions.py:27-58 | each row contributes its ID to the ungrouped list, at its own place, exactly when its array_type is no supported design's value |
| ReferenceData.GroupsPartitionRows | cnquant_dependencies/reference_data_functions.py:27-65 | the four group sizes plus the ungrouped rows add up to the row count, so each row is in at most one group |
| ReferenceData.GroupsAreSeparate | cnquant_dependencies/reference_data_functions.py:27-58 | an ID that appears only on rows of one design is in no other design's group |
| ClassOptions.AddMethod | cnquant_dependencies/get_available_methylation_classes_and_their_options.py:42 | inserting settings adds exactly that fact at the innermost level and creates no empty entry |
| ClassOptions.AddTarget | cnquant_dependencies/get_available_methylation_classes_and_their_options.py:42 | inserting under a target adds exactly that fact and creates no empty entry |
| ClassOptions.Add | cnquant_dependencies/get_available_methylation_classes_and_their_options.py:40-42 | `result[a]["downsized_to"][t][m].add(b)` adds exactly that fact; "downsized_to" stays the only second-level key |
| ClassOptions.AddTargets | cnquant_dependencies/get_available_methylation_classes_and_their_options.py:36-42 | the loop over one annotation's targets adds exactly the facts (a, t, m, b) for the listed targets and keeps every earlier fact |
| ClassOptions.AddSettingsPlots | cnquant_dependencies/get_available_methylation_classes_and_their_options.py:33-42 | the loop over the annotations of one method and settings key adds exactly their listed targets |
| ClassOptions.AddMethodPlots | cnquant_dependencies/get_available_methylation_classes_and_their_options.py:31-42 | the loop over the settings keys of one method adds exactly the facts listed under that method |
| ClassOptions.GetAvailableMethylationClassesAndTheirOptions | cnquant_dependencies/get_available_methylation_classes_and_their_options.py:2-44 | b is recorded for (a, t, m) exactly when t is listed for a under m and b; "downsized_to" is the only second-level key; no entry is empty |
| ClassOptions.MethodsDeterminedByFacts | cnquant_dependencies/get_available_methylation_classes_and_their_options.py:36-42 | method maps with no empty entry that record the same facts are equal |
| ClassOptions.TargetsDeterminedByFacts | cnquant_dependencies/get_available_methylation_classes_and_their_options.py:36-42 | target maps with no empty entry that record the same facts are equal |
| ClassOptions.AnnotationsDeterminedByFacts | cnquant_dependencies/get_available_methylation_classes_and_their_options.py:36-42 | such results have the same annotations, so an annotation whose lists are all empty is absent |
| ClassOptions.EntryDeterminedByFacts | cnquant_dependencies/get_available_methylation_classes_and_their_options.py:36-42 | such results agree on each annotation's entry |
| ClassOptions.TightIsDeterminedByFacts | cnquant_dependencies/get_available_methylation_classes_and_their_options.py:28-42 | the result is determined by the recorded facts, so duplicates and order in the target lists do not matter |
| BetaValues.GetBeta | cnquant_dependencies/preprocessing_functions.py:139-161 | a negative offset is rejected first, then a threshold outside [0, 0.5]; otherwise each beta is the floored ratio m / (m + u + offset), clipped to [t, 1 - t] when t > 0 |
| BetaValues.BetaInUnitInterval | cnquant_dependencies/preprocessing_functions.py:150-159 | with `min_zero` and a non-negative offset, every beta that is not NaN lies in [0, 1] |
| BetaValues.BetaWithinThreshold | cnquant_dependencies/preprocessing_functions.py:158-159 | with a threshold 0 < t <= 0.5, every beta that is not NaN lies in [t, 1 - t] |
| BetaValues.BetaIsPlainRatio | cnquant_dependencies/preprocessing_functions.py:150-156 | with t = 0 and a nonzero denominator the beta is m' / (m' + u' + offset), where m' and u' are floored at 0; a zero total with a zero numerator gives NaN, not an error |
| Huber.Present | cnquant_dependencies/preprocessing_functions.py:33 | the non-NaN values of the sample |
| Huber.PresentEmptyIffAllNaN | cnquant_dependencies/preprocessing_functions.py:33 | nothing remains exactly when every value is NaN |
| Huber.Median | cnquant_dependencies/preprocessing_functions.py:34 | NaN exactly for an empty sample, and otherwise finite |
| Huber.MedianAtLeast | cnquant_dependencies/preprocessing_functions.py:34 | the median is not below a lower bound of the sample |
| Huber.Scale | cnquant_dependencies/preprocessing_functions.py:35 | 1.4826 times the MAD is NaN exactly for an empty sample or a non-finite centre, and otherwise finite and non-negative |
| Huber.HuberAsWritten | cnquant_dependencies/preprocessing_functions.py:5-45 | `huber` as written: a zero scale raises; otherwise the clipped-mean step repeats until it stops |
| Huber.IterateFromNaNNeverStops | cnquant_dependencies/preprocessing_functions.py:39-44 | from a NaN centre the stop test never holds |
| Huber.AsWrittenLoopsOnEmptySample | cnquant_dependencies/preprocessing_functions.py:33-44 | an all-NaN or empty sample never stops |
| Huber.HuberSpec | cnquant_dependencies/preprocessing_functions.py:5-45 | an empty sample is rejected exactly when every value is NaN; otherwise the result is that of `huber` |
| Huber.HuberResult | cnquant_dependencies/preprocessing_functions.py:33-45 | a zero-scale error exactly when the initial scale is 0; a returned scale is the initial 1.4826 MAD, finite and positive; the returned centre met the stop test |
| Huber.IterateStopsOnlyWhenClose | cnquant_dependencies/preprocessing_functions.py:39-44 | the loop returns only a centre whose step moves it by less than tol times the scale |
| Huber.IterateFuelMonotone | cnquant_dependencies/preprocessing_functions.py:39-44 | an iteration that stops within some iteration budget stops at the same centre under any larger budget |
| Huber.HuberFuelMonotone | cnquant_dependencies/preprocessing_functions.py:39-45 | a result obtained within an iteration budget is unchanged by a larger one |
| Huber.ClipFinite | cnquant_dependencies/preprocessing_functions.py:40 | clipping into a finite interval gives a finite value inside it |
| Huber.StepWithinClipBounds | cnquant_dependencies/preprocessing_functions.py:40-41 | each step's mean of clipped values is finite and lies in [mu - k s, mu + k s] |
| Huber.HuberEstimate | cnquant_dependencies/preprocessing_functions.py:5-45 | the loop computes `HuberSpec` |
| Normexp.RawSignal | cnquant_dependencies/preprocessing_functions.py:99-102 | one signal per intensity |
| Normexp.FloorSignal | cnquant_dependencies/preprocessing_functions.py:103-110 | the floored signal has the input's length |
| Normexp.FloorPolicy | cnquant_dependencies/preprocessing_functions.py:103-110 | NaN positions stay NaN; with no negative signal nothing changes; otherwise every defined signal becomes at least 1e-6, and signals already at least 1e-6 are kept; every defined result is non-negative |
| Normexp.NormexpSignal | cnquant_dependencies/preprocessing_functions.py:48-111 | alpha <= 0 is rejected first, then sigma <= 0, and nothing else fails; the result has one non-negative or NaN value per intensity |
| Normexp.FloorAlpha | cnquant_dependencies/preprocessing_functions.py:128 | a fitted alpha is at least 10 unless it is NaN, which `max` keeps |
| Normexp.FitRow | cnquant_dependencies/preprocessing_functions.py:124-130 | a probe's fit fails only when the Huber estimate fails, and its alpha is floored at 10 |
| Normexp.FitsFrom | cnquant_dependencies/preprocessing_functions.py:124-130 | one fit per remaining probe with every alpha floored, or the first failure |
| Normexp.SignalsFrom | cnquant_dependencies/preprocessing_functions.py:131-133 | one signal row per remaining probe, shaped like its intensities and non-negative where defined, or the first error |
| Normexp.AddOffset | cnquant_dependencies/preprocessing_functions.py:134 | adding the offset keeps the shape |
| Normexp.OffsetKeepsBound | cnquant_dependencies/preprocessing_functions.py:134 | a non-negative signal plus the offset is at least the offset |
| Normexp.GetXsSpec | cnquant_dependencies/preprocessing_functions.py:113-137 | a ValueError exactly when both param and controls are missing; a supplied param is returned unchanged; otherwise param comes from the fitted values with alpha floored at 10; xs has the shape of xf and every defined entry is at least the offset |
| Normexp.FitProbe | cnquant_dependencies/preprocessing_functions.py:125-130 | the body of the fitting loop computes `FitRow` |
| Normexp.FitAll | cnquant_dependencies/preprocessing_functions.py:124-130 | the fitting loop fills the mu, sigma and alpha arrays with `FitsFrom` |
| Normexp.SignalRows | cnquant_dependencies/preprocessing_functions.py:131-133 | the signal loop fills the result with `SignalsFrom` |
| Normexp.NormexpGetXs | cnquant_dependencies/preprocessing_functions.py:113-137 | `normexp_get_xs` computes `GetXsSpec` |
| Swan.Adjust | cnquant_dependencies/preprocessing_functions.py:182-195 | one adjusted value per probe of the design |
| Swan.AdjustPolicy | cnquant_dependencies/preprocessing_functions.py:183-195 | ranks above the subset's highest rank get fp[last] + (intensity - subset max); ranks below the lowest get fp[0] + (intensity - subset min); others get the interpolated value; a value <= 0 becomes the sample's background |
| Swan.AdjustPositiveOrBackground | cnquant_dependencies/preprocessing_functions.py:195 | every adjusted value is positive or is the background |
| Swan.LastPos | cnquant_dependencies/preprocessing_functions.py:196 | the last write to a column wins |
| Swan.SwanSpec | cnquant_dependencies/preprocessing_functions.py:163-196 | which error each fault raises, in the source's order: an IndexError for a subset index or a selected column out of range, whatever the number of samples; then a ValueError for unequal subsets; then, only when there is a sample, an IndexError for a type I column out of range, then a ValueError for empty subsets, then an IndexError for a type II column out of range or a short background. With no samples the result is empty. Otherwise there is one row per sample of the input width, where a column holds a value exactly when a probe of either design sits there, stays NaN otherwise, and every value is positive or the sample's background |
| Swan.SwanRowPolicy | cnquant_dependencies/preprocessing_functions.py:179-196 | the policy for one sample's row |
| Swan.PreprocessSwanMain | cnquant_dependencies/preprocessing_functions.py:163-196 | the nested loops writing into the NaN-filled array compute `SwanSpec` |
| Text.Lower | cnquant_dependencies/PreprocessingMethods.py:17 | `str.lower`, character by character |
| Text.Upper | cnquant_dependencies/enums/ArrayType.py:113 | `str.upper`, character by character |
| Text.ReplaceFirstEffect | cnquant_dependencies/models/AnnotatedCasesLoader.py:83-88 | replacing the first occurrence removes exactly one occurrence, or leaves a string without one unchanged |
| Seqs.SortReals | cnquant_dependencies/preprocessing_functions.py:34 | an ascending permutation of the input |

## Left out

- I/O:
  - IDAT parsing, manifest loading and CSV/parquet reading are not modelled. Their results are inputs: (ids, means) pairs, manifest rows and annotation rows.
  - `orjson` encoding and decoding are not modelled. File contents are a datatype of outcomes.
  - Logging is not modelled, except the reference-data warnings, which are returned as a list.
  - The wall-clock timestamp of the status record is a parameter.
- `ArrayType.from_idat` and `_find_valid_path` are not modelled. They read the filesystem through an IDAT parser that is not part of this model.
- `data_saving_and_loading.py` and `chekc_for_missing_files.py` are not modelled. They only hash, compress, save and probe files.
- Floating point:
  - Values are exact reals plus NaN and the infinities. Rounding, signed zeros and integer dtype casts (int32/uint16) are not modelled.
  - Number rendering is taken as already-formatted strings: the file sizes are Python's `str()` of the float (so 1.5 gives "1.5 MB"), and the timings are rendered with two decimals (`:.2f`).
- The transcendental functions of `normexp_signal` are parameters, and so are the normal log-density and log-survival function. Only the guards, the floor and the offset are proved.
- Huber.HuberEstimate: the `while True` loop of `huber` runs at most `maxIterations` times. A run that exhausts the budget reports NotConverged. Convergence itself is not proved.
- Normexp.NormexpGetXs: inherits the same iteration budget through each probe's Huber fit.
- Normexp.FitRow: each probe is fitted with the corrected `Huber.HuberSpec` listed under Findings, not the as-written `huber`. On a probe whose intensities are all NaN, the source's `huber` never returns. The model reports `HuberFailed(EmptySample)` instead, and `FitsFrom` and `GetXsSpec` pass that failure on.
- Swan.Interp: the interior of `np.interp` is modelled by its definition. Only the clamping at the ends, and the tail and floor policies, are proved about it.
- Swan.PreprocessSwanMain:
  - Indices are natural numbers, so negative numpy indices are not modelled.
  - Size-1 broadcasting of subsets of unequal size is not modelled. Unequal sizes are a ValueError. With samples the source fails on them too, in `np.interp`. With no samples and one subset of size 1, the source broadcasts and returns an empty result.
  - The random subset indices are parameters.
  - The in-place update of `interp` is the function `Adjust`.
- StatusJsons.SaveToDisk: the parent directories that `mkdir` creates before a later failure are not modelled. The contents of a file emptied by `open` before a failed write are `Truncated`. Whether a partial write is left in it is not modelled.
- BetaValues.GetBeta: numpy broadcasting of arrays of different shapes is not modelled. Unequal lengths are a ShapeMismatch error.
- Probes: the values of `ProbeType` and `Channel` come from the probes module, which is not part of this model. The model uses "I", "II", "SnpI", "SnpII", "Control" and "Red", "Grn". The Probe_Type and Color_Channel columns are assumed present. The manifest's index labels are its row positions.
- RawDatas.Assemble: with a single green file, `reduce` returns that file's IDs as they are, not sorted. This is modelled as written. The alignment lemmas assume ascending IDs. The Sentrix IDs are inputs, since they come from the file paths. The IDs of each IDAT file are assumed unique: `np.isin(..., assume_unique=True)` is modelled as exact membership, which is what numpy computes only for arrays without repeats.
- AnnotatedCases.AnnotatedCasesLoader.GetMethylationClassesSelection: polars `unique()` gives no order, and the model keeps first occurrences. Rows without a class are dropped by the blacklist filter, not by `drop_nans`: polars' `drop_nans` keeps nulls, but `is_in` on a null class gives null, and `filter` drops rows whose condition is null. This relies on those polars null semantics.
- CommonArrayType's `value_to_key_mapping` is the same comprehension as that of `ArrayType`. It is modelled once, as `ArrayTypes.ValueToKeyMapping`.
- Paths.GetStatusJsonPath: the path is a (directory, file name) pair. pathlib's joining and normalisation are not modelled: collapsing "." segments and repeated slashes, and an absolute right operand replacing the directory. Sentrix IDs and downsizing targets are assumed free of '/'. Without that, Paths.StatusJsonPathInjective does not hold of pathlib paths ("a/./b" and "a/b" name the same file), and the file need not lie in the sample directory.
- Swan and Huber: intensities are finite reals. SWAN's input holds no NaN and Huber's holds no infinities, so the NaN handling of `rankdata`, `np.sort` and `np.interp`, and infinite samples in `huber`, are not modelled. Huber's NaN samples are modelled, as `None`.
- CommonArrayTypes.GetArrayTypes: the argument is typed as the enumeration, so the `ValueError` branch of `get_array_types`, reached when a caller passes anything that is not a member (such as the string "EPIC_v2_to_HM450K"), is not modelled.
- StatusJson's `get_status_json_path` is the same function as that of `paths_functions.py`. It is modelled once, as `Paths.GetStatusJsonPath`.
- The NO_DOWNSIZING member of `CommonArrayType` comes from a module that is not part of this model. It is the constant "NO_DOWNSIZING".
- Text.Lower and Text.Upper map ASCII letters only. Python's full Unicode case mapping is not modelled.
- The keyword API `common_array_types` and `CommonArrayType.members_list`, used by the tests, are not defined by `CommonArrayType.py`. They are not modelled.

## Findings

| source | as written | input that shows it | evidently intended | confidence | as-written member | corrected member |
|---|---|---|---|---|---|---|
| cnquant_dependencies/preprocessing_functions.py:33-44 | `huber` does not check whether any value remains after dropping NaNs. The median of an empty sample is NaN, so `s == 0` is false and the zero-scale error is not raised. `abs(mu - mu1) < tol * s` is then false on every pass, so `while True` never returns. | `y = [nan]`, or `y = []` | raise an error for an empty sample, as R's `MASS::huber` does | not executed | Huber.AsWrittenLoopsOnEmptySample | Huber.HuberSpec |
