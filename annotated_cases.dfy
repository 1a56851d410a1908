/** Loading and querying the annotated reference cases
    (models/AnnotatedCasesLoader.py). The annotation CSV is taken as the rows
    its reader yields; the Sentrix ID and methylation class columns are
    fixed fields here. */
module AnnotatedCases {
  import opened Wrappers
  import opened Text
  import opened Seqs

  /** A row as read from the annotation file. A missing class is `None`;
      `hasNan` says whether any floating-point column of the row is NaN. */
  datatype FileRow = FileRow(sentrixId: string, methylationClass: Option<string>, hasNan: bool)

  /** A row of the loaded annotation. */
  datatype Case = Case(sentrixId: string, methylationClass: string)

  datatype LoaderError = ValueError(message: string)

  /** A row passes the blacklist filter when its class is present and not
      blacklisted (a missing class makes the filter condition null, which
      drops the row), and survives `drop_nans` when it has no NaN. */
  predicate Survives(row: FileRow, blacklist: seq<string>) {
    row.methylationClass.Some? && row.methylationClass.value !in blacklist && !row.hasNan
  }

  /** The class rewrite: the first "/" becomes "_". */
  function Rewrite(row: FileRow): Case
    requires row.methylationClass.Some?
  {
    Case(row.sentrixId, ReplaceFirst(row.methylationClass.value, '/', '_'))
  }

  /** `load_annotated_cases`: the blacklist filter, then `drop_nans`, then
      the rewrite of each class, keeping row order. */
  function LoadAnnotatedCases(fileRows: seq<FileRow>, blacklist: seq<string>): (r: seq<Case>)
    ensures |r| <= |fileRows|
    ensures forall c :: c in r <==> exists row :: row in fileRows && Survives(row, blacklist) && c == Rewrite(row)
  {
    if |fileRows| == 0 then []
    else
      var init := fileRows[..|fileRows| - 1];
      var last := fileRows[|fileRows| - 1];
      assert forall row :: row in fileRows <==> row in init || row == last;
      LoadAnnotatedCases(init, blacklist) + (if Survives(last, blacklist) then [Rewrite(last)] else [])
  }

  /** The filter runs on the classes as written, before the rewrite: a class
      "A/B" survives a blacklist holding "A_B", and is then loaded as "A_B". */
  lemma BlacklistPrecedesRewrite()
    ensures Case("s1", "A_B") in LoadAnnotatedCases([FileRow("s1", Some("A/B"), false)], ["A_B"])
  {
    var r := ReplaceFirst("A/B", '/', '_');
    assert FirstIndexOf("A/B", '/') == Some(1);
    assert r == "A_B";
    assert FileRow("s1", Some("A/B"), false) in [FileRow("s1", Some("A/B"), false)];
  }

  /** Only the first "/" is rewritten: "A/B/C" loads as "A_B/C". */
  lemma OnlyFirstSlashRewritten()
    ensures LoadAnnotatedCases([FileRow("s1", Some("A/B/C"), false)], []) == [Case("s1", "A_B/C")]
  {
    assert FirstIndexOf("A/B/C", '/') == Some(1);
    assert ReplaceFirst("A/B/C", '/', '_') == "A_B/C";
  }

  /** The loaded classes carry at most one "/" fewer than the file's. */
  lemma RewriteRemovesOneSlash(row: FileRow)
    requires row.methylationClass.Some?
    ensures var cls := row.methylationClass.value;
      CountChar(Rewrite(row).methylationClass, '/') == if CountChar(cls, '/') > 0 then CountChar(cls, '/') - 1 else 0
  {
    ReplaceFirstEffect(row.methylationClass.value, '/', '_');
    if CountChar(row.methylationClass.value, '/') == 0 {
      CountCharZero(row.methylationClass.value, '/');
    }
  }

  function Classes(cases: seq<Case>): (r: seq<string>)
    ensures |r| == |cases|
    ensures forall i :: 0 <= i < |cases| ==> r[i] == cases[i].methylationClass
  {
    seq(|cases|, i requires 0 <= i < |cases| => cases[i].methylationClass)
  }

  /** The Sentrix IDs of the cases whose class is in `selection` (all cases for None). */
  function SentrixIdsOf(cases: seq<Case>, selection: Option<seq<string>>): (r: seq<string>)
    ensures forall s :: s in r <==>
      exists c :: c in cases && c.sentrixId == s && (selection.Some? ==> c.methylationClass in selection.value)
  {
    if |cases| == 0 then []
    else
      var init := cases[..|cases| - 1];
      var last := cases[|cases| - 1];
      assert forall c :: c in cases <==> c in init || c == last;
      SentrixIdsOf(init, selection)
        + (if selection.None? || last.methylationClass in selection.value then [last.sentrixId] else [])
  }

  /** `AnnotatedCasesLoader`: the blacklist and the loaded annotation. */
  class AnnotatedCasesLoader {
    var blacklistedMethylationClasses: seq<string>
    var annotation: seq<Case>

    /** Stores the blacklist and loads the annotation. */
    constructor (fileRows: seq<FileRow>, blacklistedMethylationClasses: seq<string>)
      ensures this.blacklistedMethylationClasses == blacklistedMethylationClasses
      ensures annotation == LoadAnnotatedCases(fileRows, blacklistedMethylationClasses)
    {
      this.blacklistedMethylationClasses := blacklistedMethylationClasses;
      annotation := LoadAnnotatedCases(fileRows, blacklistedMethylationClasses);
    }

    /** `update_annotated_cases`: reloads from the file's current rows; only
        the annotation changes. */
    method UpdateAnnotatedCases(fileRows: seq<FileRow>)
      modifies this
      ensures annotation == LoadAnnotatedCases(fileRows, blacklistedMethylationClasses)
      ensures blacklistedMethylationClasses == old(blacklistedMethylationClasses)
    {
      annotation := LoadAnnotatedCases(fileRows, blacklistedMethylationClasses);
    }

    /** `get_methylation_classes_selection`: without a choice, every class
        present, each once; a chosen class that is present on its own; a
        chosen class that is absent raises ValueError. */
    function GetMethylationClassesSelection(chosen: Option<string>): (r: Result<seq<string>, LoaderError>)
      reads this
      ensures chosen.None? ==>
        && r.Ok? && NoDuplicates(r.value)
        && (forall m :: m in r.value <==> exists c :: c in annotation && c.methylationClass == m)
      ensures chosen.Some? && (exists c :: c in annotation && c.methylationClass == chosen.value) ==> r == Ok([chosen.value])
      ensures chosen.Some? && !(exists c :: c in annotation && c.methylationClass == chosen.value) ==>
        r == Err(ValueError("Invalid methylation class: " + chosen.value))
    {
      var classes := Unique(Classes(annotation));
      assert forall m :: m in classes <==> exists c :: c in annotation && c.methylationClass == m by {
        forall m ensures m in classes <==> exists c :: c in annotation && c.methylationClass == m {
          if m in Classes(annotation) {
            var i :| 0 <= i < |annotation| && Classes(annotation)[i] == m;
            assert annotation[i] in annotation;
          }
          if exists c :: c in annotation && c.methylationClass == m {
            var c :| c in annotation && c.methylationClass == m;
            var i :| 0 <= i < |annotation| && annotation[i] == c;
            assert Classes(annotation)[i] == m;
          }
        }
      }
      match chosen
      case None => Ok(classes)
      case Some(m) =>
        if m in classes then Ok([m]) else Err(ValueError("Invalid methylation class: " + m))
    }

    /** `get_annotated_sentrix_ids`: the distinct Sentrix IDs of all cases
        (None), or of the cases whose class is in the selection; an empty
        selection gives none. */
    function GetAnnotatedSentrixIds(selection: Option<seq<string>>): (r: seq<string>)
      reads this
      ensures NoDuplicates(r)
      ensures forall s :: s in r <==>
        exists c :: c in annotation && c.sentrixId == s && (selection.Some? ==> c.methylationClass in selection.value)
      ensures selection == Some([]) ==> r == []
    {
      var r := Unique(SentrixIdsOf(annotation, selection));
      assert |r| > 0 ==> r[0] in r;
      r
    }
  }
}
