/** The per-sample analysis status record (models/StatusJson.py): how it is
    rendered as a JSON object, and how a status file is read back. File
    contents are abstracted: a file is absent, unreadable, not valid JSON, or
    holds a decoded JSON document; encoding a record and decoding it again is
    taken to give the same document. */
module StatusJsons {
  import opened Wrappers
  import opened Text
  import Paths

  /** A decoded JSON value, with only the kinds the status functions tell apart. */
  datatype Json = JStr(s: string) | JObj(fields: map<string, Json>) | JOther

  /** The fields stored by `StatusJson.__init__`. File sizes are kept as the
      text Python prints for them, and timings as their "%.2f" rendering. */
  datatype StatusJson = StatusJson(
    sentrixId: string,
    idatDirectory: string,
    preprocessingMethod: string,
    minProbesPerBin: int,
    binSize: int,
    sentrixIdOutputDirectory: string,
    referenceSentrixIds: Option<string>,
    arrayType: Option<string>,
    redIdatSize: string,
    greenIdatSize: string,
    failureReason: Option<string>,
    completionStatus: Option<bool>,
    rawDataParsingTime: Option<string>,
    dataAnalysisTiming: Option<string>,
    downsizeTo: string)

  /** `None` renders as "N/A". */
  function OrNA(v: Option<string>): (r: string)
    ensures v.None? ==> r == "N/A"
    ensures v.Some? ==> r == v.value
  {
    match v
    case None => "N/A"
    case Some(s) => s
  }

  function BoolToString(b: bool): string {
    if b then "True" else "False"
  }

  const CompletedKey := "analysis_completed_successfully"
  const ArrayTypeKey := "array_type"

  /** `make_status_json`; `timestamp` is the UTC time of the call, rendered
      "%Y-%m-%dT%H:%M:%S" (the clock is not part of the model). */
  function MakeStatusJson(st: StatusJson, timestamp: string): (r: map<string, Json>)
    ensures r.Keys == {CompletedKey, "sentrix_id", ArrayTypeKey, "failure_reason", "timestamp",
                       "analysis_settings", "input_data", "results_output_directory", "time_taken"}
    ensures r[CompletedKey] == JStr(if st.completionStatus == Some(true) then "True" else "False")
    ensures r[ArrayTypeKey] == JStr(OrNA(st.arrayType))
    ensures r["failure_reason"] == JStr(OrNA(st.failureReason))
    ensures r["analysis_settings"].JObj?
    ensures r["analysis_settings"].fields == map[
      "bin_size" := JStr(IntToString(st.binSize)),
      "min_probes_per_bin" := JStr(IntToString(st.minProbesPerBin)),
      "downsized_to" := JStr(st.downsizeTo)]
    ensures r["input_data"] == JObj(map[
      "input_directory" := JStr(st.idatDirectory),
      "red_idat_size" := JStr(st.redIdatSize + " MB"),
      "green_idat_size" := JStr(st.greenIdatSize + " MB"),
      "reference_sentrix_ids" := JStr(OrNA(st.referenceSentrixIds)),
      "preprocessing_method" := JStr(st.preprocessingMethod)])
    ensures r["time_taken"] == JObj(map[
      "Raw data parsing time [s]" := JStr(OrNA(st.rawDataParsingTime)),
      "Data analysis time [s]" := JStr(OrNA(st.dataAnalysisTiming))])
  {
    // the keys the contracts look up come last
    map[
      "sentrix_id" := JStr(st.sentrixId),
      "timestamp" := JStr(timestamp),
      "results_output_directory" := JStr(st.sentrixIdOutputDirectory),
      "time_taken" := JObj(TimeTaken(st)),
      "input_data" := JObj(InputData(st)),
      "analysis_settings" := JObj(AnalysisSettings(st)),
      "failure_reason" := JStr(OrNA(st.failureReason)),
      ArrayTypeKey := JStr(OrNA(st.arrayType)),
      CompletedKey := JStr(match st.completionStatus
                           case Some(b) => BoolToString(b)
                           case None => "False")
    ]
  }

  /** The "analysis_settings" object. */
  function AnalysisSettings(st: StatusJson): map<string, Json> {
    map[
      "bin_size" := JStr(IntToString(st.binSize)),
      "min_probes_per_bin" := JStr(IntToString(st.minProbesPerBin)),
      "downsized_to" := JStr(st.downsizeTo)]
  }

  /** The "input_data" object: sizes carry an " MB" suffix. */
  function InputData(st: StatusJson): map<string, Json> {
    map[
      "input_directory" := JStr(st.idatDirectory),
      "red_idat_size" := JStr(st.redIdatSize + " MB"),
      "green_idat_size" := JStr(st.greenIdatSize + " MB"),
      "reference_sentrix_ids" := JStr(OrNA(st.referenceSentrixIds)),
      "preprocessing_method" := JStr(st.preprocessingMethod)]
  }

  /** The "time_taken" object. */
  function TimeTaken(st: StatusJson): map<string, Json> {
    map[
      "Raw data parsing time [s]" := JStr(OrNA(st.rawDataParsingTime)),
      "Data analysis time [s]" := JStr(OrNA(st.dataAnalysisTiming))]
  }

  /** What reading a status file yields. */
  datatype StatusFile =
    | Absent
    | PermissionDenied
    | OtherIoError
    | InvalidJson
    | Document(json: Json)

  datatype ReadError = ValueError(message: string) | OSError(message: string) | PermissionError

  /** `load_analysis_status_json`: {} for a missing file, the object for a
      JSON object, ValueError for invalid JSON or a non-object document, and
      OSError when the file cannot be read. */
  function LoadAnalysisStatusJson(f: StatusFile): (r: Result<map<string, Json>, ReadError>)
    ensures f.Absent? ==> r == Ok(map[])
    ensures f.Document? && f.json.JObj? ==> r == Ok(f.json.fields)
    ensures r.Err? && r.error.ValueError? <==> f.InvalidJson? || (f.Document? && !f.json.JObj?)
    ensures r.Err? && r.error.OSError? <==> f.PermissionDenied? || f.OtherIoError?
  {
    match f
    case Absent => Ok(map[])
    case PermissionDenied => Err(OSError("Unable to read file"))
    case OtherIoError => Err(OSError("Unable to read file"))
    case InvalidJson => Err(ValueError("Failed to decode JSON"))
    case Document(j) =>
      if j.JObj? then Ok(j.fields) else Err(ValueError("Loaded data is not a dictionary"))
  }

  /** `check_if_previous_analysis_was_successful`: true exactly when the file
      holds an object whose completion flag is a string that lower-cases to
      "true". A missing file, a missing or non-string flag, or any read or
      parse failure gives false; only a permission failure is raised. */
  function CheckIfPreviousAnalysisWasSuccessful(f: StatusFile): (r: Result<bool, ReadError>)
    ensures r.Err? <==> f.PermissionDenied?
    ensures r == Ok(true) <==>
      f.Document? && f.json.JObj? && CompletedKey in f.json.fields
      && f.json.fields[CompletedKey].JStr? && Lower(f.json.fields[CompletedKey].s) == "true"
  {
    match f
    case PermissionDenied => Err(PermissionError)
    case Document(JObj(fields)) =>
      if CompletedKey in fields && fields[CompletedKey].JStr? then
        Ok(Lower(fields[CompletedKey].s) == "true")
      else
        Ok(false)  // `None.lower()` or a non-string value raises inside the try and is logged
    case _ => Ok(false)
  }

  /** `get_array_type`: the lower-cased stored array type; "n/a" (the
      lower-cased default) when the object has no such key; "N/A" for a
      missing file, a non-string value or any failure other than a
      permission failure, which is raised. */
  function GetArrayType(f: StatusFile): (r: Result<string, ReadError>)
    ensures r.Err? <==> f.PermissionDenied?
    ensures f.Absent? ==> r == Ok("N/A")
    ensures f.Document? && f.json.JObj? && ArrayTypeKey !in f.json.fields ==> r == Ok("n/a")
    ensures f.Document? && f.json.JObj? && ArrayTypeKey in f.json.fields && f.json.fields[ArrayTypeKey].JStr?
      ==> r == Ok(Lower(f.json.fields[ArrayTypeKey].s))
    ensures || f.InvalidJson? || f.OtherIoError?
            || (f.Document? && !f.json.JObj?)
            || (f.Document? && f.json.JObj? && ArrayTypeKey in f.json.fields && !f.json.fields[ArrayTypeKey].JStr?)
      ==> r == Ok("N/A")
  {
    match f
    case PermissionDenied => Err(PermissionError)
    case Document(JObj(fields)) =>
      if ArrayTypeKey !in fields then
        assert Lower("N/A") == "n/a" by { assert |Lower("N/A")| == 3; }
        Ok(Lower("N/A"))
      else if fields[ArrayTypeKey].JStr? then Ok(Lower(fields[ArrayTypeKey].s))
      else Ok("N/A")
    case _ => Ok("N/A")
  }

  /** Round trip: a record written with `completion_status=True` reads back
      as successful; one written with False or None reads back as unsuccessful. */
  lemma CompletionFlagRoundTrip(st: StatusJson, timestamp: string)
    ensures CheckIfPreviousAnalysisWasSuccessful(Document(JObj(MakeStatusJson(st, timestamp))))
         == Ok(st.completionStatus == Some(true))
  {
    var fields := MakeStatusJson(st, timestamp);
    assert CompletedKey in fields;
    assert fields[CompletedKey] == JStr(if st.completionStatus == Some(true) then "True" else "False");
    LowerOfFlags();
  }

  /** How the two renderings of the flag lower-case. */
  lemma LowerOfFlags()
    ensures Lower("True") == "true" && Lower("False") != "true"
  {
    assert |Lower("False")| == 5;
    var t := Lower("True");
    assert t[0] == 't' && t[1] == 'r' && t[2] == 'u' && t[3] == 'e';
  }

  /** Round trip of the array type: the stored value comes back lower-cased,
      and a record without one comes back as "n/a". */
  lemma ArrayTypeRoundTrip(st: StatusJson, timestamp: string)
    ensures GetArrayType(Document(JObj(MakeStatusJson(st, timestamp))))
         == Ok(Lower(OrNA(st.arrayType)))
  {
  }

  /** How an attempt to write the status file ends: a failure other than a
      permission failure either happens before the file is opened (in
      `mkdir` or `open`) or after `open(..., "wb")` has emptied it (in the
      encoding or the write). */
  datatype WriteOutcome = WriteSucceeded | WritePermissionDenied | FailedBeforeOpen | FailedAfterOpen

  /** What `save_to_disk` leaves behind at the status path: the document it
      wrote, the file as it was, or a file emptied by the open whose write
      did not complete. */
  datatype Saved = Written(path: Paths.Path, document: map<string, Json>) | NotWritten | Truncated(path: Paths.Path)

  /** `save_to_disk`: writes `make_status_json()` to
      "<id>_status<suffix>.json" in the output directory. A permission
      failure is raised; any other failure is logged and the call returns. */
  function SaveToDisk(st: StatusJson, fileSuffix: string, timestamp: string, outcome: WriteOutcome)
    : (r: Result<Saved, ReadError>)
    ensures r.Err? <==> outcome == WritePermissionDenied
    ensures r == Ok(NotWritten) <==> outcome == FailedBeforeOpen
    ensures (r.Ok? && r.value.Truncated?) <==> outcome == FailedAfterOpen
    ensures r.Ok? && !r.value.NotWritten? ==>
      && r.value.path.directory == st.sentrixIdOutputDirectory
      && r.value.path.fileName == st.sentrixId + "_status" + fileSuffix + ".json"
    ensures r.Ok? && r.value.Written? ==> r.value.document == MakeStatusJson(st, timestamp)
  {
    var path := Paths.Path(st.sentrixIdOutputDirectory, st.sentrixId + "_status" + fileSuffix + ".json");
    match outcome
    case WriteSucceeded => Ok(Written(path, MakeStatusJson(st, timestamp)))
    case WritePermissionDenied => Err(PermissionError)
    case FailedBeforeOpen => Ok(NotWritten)
    case FailedAfterOpen => Ok(Truncated(path))
  }

  /** Saving with the suffix that `get_status_json_path` derives from a
      downsizing target ("" for NO_DOWNSIZING, "_<target>" otherwise) writes
      exactly the file that `get_status_json_path` later looks up, and the
      completion flag read back from it is the one that was saved. */
  lemma SaveThenCheck(st: StatusJson, timestamp: string)
    ensures var suffix := if st.downsizeTo != Paths.NoDownsizing then "_" + st.downsizeTo else "";
      var saved := SaveToDisk(st, suffix, timestamp, WriteSucceeded);
      && saved.Ok? && saved.value.Written?
      && saved.value.path == Paths.GetStatusJsonPath(st.sentrixId, st.sentrixIdOutputDirectory, st.downsizeTo)
      && CheckIfPreviousAnalysisWasSuccessful(Document(JObj(saved.value.document)))
         == Ok(st.completionStatus == Some(true))
  {
    CompletionFlagRoundTrip(st, timestamp);
  }
}
