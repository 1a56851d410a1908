/** The location of the per-sample status file (paths_functions.py, and the
    identical `get_status_json_path` of models/StatusJson.py). */
module Paths {

  /** The value of `CommonArrayType.NO_DOWNSIZING`: no downsizing was applied. */
  const NoDownsizing := "NO_DOWNSIZING"

  /** `directory / fileName` */
  datatype Path = Path(directory: string, fileName: string)

  /** `get_status_json_path`: "<id>_status.json" in the sample directory when
      `downsize_to` is the NO_DOWNSIZING value, "<id>_status_<downsize_to>.json"
      otherwise. */
  function GetStatusJsonPath(sentrixId: string, sentrixIdDirectory: string, downsizeTo: string): (p: Path)
    ensures p.directory == sentrixIdDirectory
    ensures downsizeTo == NoDownsizing <==> p.fileName == sentrixId + "_status.json"
    ensures downsizeTo != NoDownsizing ==> p.fileName == sentrixId + "_status_" + downsizeTo + ".json"
  {
    var fileSuffix := if downsizeTo != NoDownsizing then "_" + downsizeTo else "";
    Path(sentrixIdDirectory, sentrixId + "_status" + fileSuffix + ".json")
  }

  /** For one sample and directory, different `downsize_to` values never share
      a status file: distinct targets give distinct paths, and no target's
      path is the path of the NO_DOWNSIZING run. */
  lemma StatusJsonPathInjective(sentrixId: string, sentrixIdDirectory: string, d1: string, d2: string)
    requires GetStatusJsonPath(sentrixId, sentrixIdDirectory, d1) == GetStatusJsonPath(sentrixId, sentrixIdDirectory, d2)
    ensures d1 == d2
  {
    var f1 := GetStatusJsonPath(sentrixId, sentrixIdDirectory, d1).fileName;
    var f2 := GetStatusJsonPath(sentrixId, sentrixIdDirectory, d2).fileName;
    var head := sentrixId + "_status_";
    if d1 != NoDownsizing && d2 != NoDownsizing {
      assert f1 == head + d1 + ".json" && f2 == head + d2 + ".json";
      assert |d1| == |d2|;
      assert d1 == f1[|head|..|head| + |d1|] == f2[|head|..|head| + |d2|] == d2;
    }
  }
}
