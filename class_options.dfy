/** Inversion of the available summary plots into per-class options
    (get_available_methylation_classes_and_their_options.py). The input maps
    preprocessing method -> bin settings -> annotation -> downsizing targets;
    the result maps annotation -> "downsized_to" -> target -> method -> set
    of bin settings. */
module ClassOptions {

  /** A bin-settings key: (bin_size, min_probes_per_bin). */
  type BinSettings = (int, int)

  type Plots = map<string, map<BinSettings, map<string, seq<string>>>>

  /** method -> settings */
  type ByMethod = map<string, set<BinSettings>>
  /** target -> method -> settings */
  type ByTarget = map<string, ByMethod>
  /** annotation -> "downsized_to" -> target -> method -> settings */
  type Options = map<string, map<string, ByTarget>>

  const DownsizedTo := "downsized_to"

  /** The input lists target `t` for annotation `a` under method `m` and settings `b`. */
  predicate Listed(plots: Plots, m: string, b: BinSettings, a: string, t: string) {
    m in plots && b in plots[m] && a in plots[m][b] && t in plots[m][b][a]
  }

  predicate HasMethod(l: ByMethod, m: string, b: BinSettings) {
    m in l && b in l[m]
  }

  predicate HasTarget(l: ByTarget, t: string, m: string, b: BinSettings) {
    t in l && HasMethod(l[t], m, b)
  }

  /** The result records settings `b` for method `m`, target `t` and annotation `a`. */
  predicate Has(r: Options, a: string, t: string, m: string, b: BinSettings) {
    a in r && DownsizedTo in r[a] && HasTarget(r[a][DownsizedTo], t, m, b)
  }

  predicate TightMethods(l: ByMethod) {
    forall m :: m in l ==> l[m] != {}
  }

  predicate TightTargets(l: ByTarget) {
    forall t :: t in l ==> l[t] != map[] && TightMethods(l[t])
  }

  /** Every level is created by an insertion: "downsized_to" is the only
      second-level key, and no map or set in the result is empty. */
  predicate Tight(r: Options) {
    forall a :: a in r ==> r[a].Keys == {DownsizedTo} && r[a][DownsizedTo] != map[] && TightTargets(r[a][DownsizedTo])
  }

  function AddMethod(l: ByMethod, m: string, b: BinSettings): (l': ByMethod)
    requires TightMethods(l)
    ensures TightMethods(l')
    ensures forall m', b' :: HasMethod(l', m', b') <==> HasMethod(l, m', b') || (m' == m && b' == b)
  {
    l[m := (if m in l then l[m] else {}) + {b}]
  }

  function AddTarget(l: ByTarget, t: string, m: string, b: BinSettings): (l': ByTarget)
    requires TightTargets(l)
    ensures TightTargets(l')
    ensures forall t', m', b' :: HasTarget(l', t', m', b') <==> HasTarget(l, t', m', b') || (t' == t && m' == m && b' == b)
  {
    var inner := AddMethod(if t in l then l[t] else map[], m, b);
    assert m in inner;
    l[t := inner]
  }

  /** `result[a]["downsized_to"][t][m].add(b)`, with the defaultdict levels
      created on demand. */
  function Add(r: Options, a: string, t: string, m: string, b: BinSettings): (r': Options)
    requires Tight(r)
    ensures Tight(r')
    ensures forall a', t', m', b' :: Has(r', a', t', m', b') <==> Has(r, a', t', m', b') || (a' == a && t' == t && m' == m && b' == b)
  {
    var inner := AddTarget(if a in r then r[a][DownsizedTo] else map[], t, m, b);
    assert t in inner;
    PutAnnotation(r, a, t, m, b, inner);
    r[a := map[DownsizedTo := inner]]
  }

  /** Replacing the targets of annotation `a` by `inner`, which adds one
      record to what `a` had, adds that record and keeps the result tight. */
  lemma PutAnnotation(r: Options, a: string, t: string, m: string, b: BinSettings, inner: ByTarget)
    requires Tight(r) && inner != map[] && TightTargets(inner)
    requires forall t', m', b' :: HasTarget(inner, t', m', b') <==>
               Has(r, a, t', m', b') || (t' == t && m' == m && b' == b)
    ensures Tight(r[a := map[DownsizedTo := inner]])
    ensures forall a', t', m', b' :: Has(r[a := map[DownsizedTo := inner]], a', t', m', b') <==>
              Has(r, a', t', m', b') || (a' == a && t' == t && m' == m && b' == b)
  {
    var r' := r[a := map[DownsizedTo := inner]];
    forall a' | a' in r'
      ensures r'[a'].Keys == {DownsizedTo} && r'[a'][DownsizedTo] != map[] && TightTargets(r'[a'][DownsizedTo])
    {
      if a' != a {
        assert r'[a'] == r[a'];
      }
    }
    forall a', t', m', b'
      ensures Has(r', a', t', m', b') <==> Has(r, a', t', m', b') || (a' == a && t' == t && m' == m && b' == b)
    {
      if a' == a {
        assert r'[a'][DownsizedTo] == inner;
      } else if a' in r {
        assert r'[a'] == r[a'];
      }
    }
  }

  /** `get_available_methylation_classes_and_their_options`: settings `b`
      are recorded for annotation `a`, target `t` and method `m` exactly when
      the input lists `t` for `a` under `m` and `b`. */
  method GetAvailableMethylationClassesAndTheirOptions(plots: Plots) returns (r: Options)
    ensures Tight(r)
    ensures forall a, t, m, b :: Has(r, a, t, m, b) <==> Listed(plots, m, b, a, t)
  {
    r := map[];
    var methods := plots.Keys;
    ghost var doneMethods: set<string> := {};
    while methods != {}
      invariant methods + doneMethods == plots.Keys && methods !! doneMethods
      invariant Tight(r)
      invariant forall a, t, m, b :: Has(r, a, t, m, b) <==> m in doneMethods && Listed(plots, m, b, a, t)
      decreases methods
    {
      var m :| m in methods;
      r := AddMethodPlots(r, m, plots[m]);
      methods := methods - {m};
      doneMethods := doneMethods + {m};
    }
  }

  /** The records of one method: every settings key, annotation and target
      listed under it is added. */
  method AddMethodPlots(r0: Options, m: string, bySettings: map<BinSettings, map<string, seq<string>>>) returns (r: Options)
    requires Tight(r0)
    ensures Tight(r)
    ensures forall a, t, m', b :: Has(r, a, t, m', b) <==>
              Has(r0, a, t, m', b) || (m' == m && b in bySettings && a in bySettings[b] && t in bySettings[b][a])
  {
    r := r0;
    var settings := bySettings.Keys;
    ghost var doneSettings: set<BinSettings> := {};
    while settings != {}
      invariant settings + doneSettings == bySettings.Keys && settings !! doneSettings
      invariant Tight(r)
      invariant forall a, t, m', b :: Has(r, a, t, m', b) <==>
        Has(r0, a, t, m', b) || (m' == m && b in doneSettings && a in bySettings[b] && t in bySettings[b][a])
      decreases settings
    {
      var b :| b in settings;
      r := AddSettingsPlots(r, m, b, bySettings[b]);
      settings := settings - {b};
      doneSettings := doneSettings + {b};
    }
  }

  /** The records of one method and one settings key. */
  method AddSettingsPlots(r0: Options, m: string, b: BinSettings, byAnnotation: map<string, seq<string>>) returns (r: Options)
    requires Tight(r0)
    ensures Tight(r)
    ensures forall a, t, m', b' :: Has(r, a, t, m', b') <==>
              Has(r0, a, t, m', b') || (m' == m && b' == b && a in byAnnotation && t in byAnnotation[a])
  {
    r := r0;
    var annotations := byAnnotation.Keys;
    ghost var doneAnnotations: set<string> := {};
    while annotations != {}
      invariant annotations + doneAnnotations == byAnnotation.Keys && annotations !! doneAnnotations
      invariant Tight(r)
      invariant forall a, t, m', b' :: Has(r, a, t, m', b') <==>
        Has(r0, a, t, m', b') || (m' == m && b' == b && a in doneAnnotations && t in byAnnotation[a])
      decreases annotations
    {
      var a :| a in annotations;
      r := AddTargets(r, a, byAnnotation[a], m, b);
      annotations := annotations - {a};
      doneAnnotations := doneAnnotations + {a};
    }
  }

  /** `for t in targets: result[a]["downsized_to"][t][m].add(b)`. */
  method AddTargets(r0: Options, a: string, targets: seq<string>, m: string, b: BinSettings) returns (r: Options)
    requires Tight(r0)
    ensures Tight(r)
    ensures forall a', t, m', b' :: Has(r, a', t, m', b') <==>
              Has(r0, a', t, m', b') || (a' == a && t in targets && m' == m && b' == b)
  {
    r := r0;
    var i := 0;
    while i < |targets|
      invariant 0 <= i <= |targets|
      invariant Tight(r)
      invariant forall a', t, m', b' :: Has(r, a', t, m', b') <==>
        Has(r0, a', t, m', b') || (a' == a && t in targets[..i] && m' == m && b' == b)
    {
      r := Add(r, a, targets[i], m, b);
      assert targets[..i + 1] == targets[..i] + [targets[i]];
      i := i + 1;
    }
    assert targets[..i] == targets;
  }

  /** Tight method maps recording the same facts are equal. */
  lemma MethodsDeterminedByFacts(l1: ByMethod, l2: ByMethod)
    requires TightMethods(l1) && TightMethods(l2)
    requires forall m, b :: HasMethod(l1, m, b) <==> HasMethod(l2, m, b)
    ensures l1 == l2
  {
    forall m | m in l1 ensures m in l2 {
      var b :| b in l1[m];
      assert HasMethod(l1, m, b);
    }
    forall m | m in l2 ensures m in l1 {
      var b :| b in l2[m];
      assert HasMethod(l2, m, b);
    }
    forall m | m in l1 ensures l1[m] == l2[m] {
      forall b ensures b in l1[m] <==> b in l2[m] {
        assert HasMethod(l1, m, b) <==> HasMethod(l2, m, b);
      }
    }
  }

  /** Tight target maps recording the same facts are equal. */
  lemma TargetsDeterminedByFacts(l1: ByTarget, l2: ByTarget)
    requires TightTargets(l1) && TightTargets(l2)
    requires forall t, m, b :: HasTarget(l1, t, m, b) <==> HasTarget(l2, t, m, b)
    ensures l1 == l2
  {
    forall t | t in l1 ensures t in l2 {
      var m :| m in l1[t];
      var b :| b in l1[t][m];
      assert HasTarget(l1, t, m, b);
    }
    forall t | t in l2 ensures t in l1 {
      var m :| m in l2[t];
      var b :| b in l2[t][m];
      assert HasTarget(l2, t, m, b);
    }
    forall t | t in l1 ensures l1[t] == l2[t] {
      forall m, b ensures HasMethod(l1[t], m, b) <==> HasMethod(l2[t], m, b) {
        assert HasTarget(l1, t, m, b) <==> HasTarget(l2, t, m, b);
      }
      MethodsDeterminedByFacts(l1[t], l2[t]);
    }
  }

  /** A non-empty tight target map records some fact. */
  lemma SomeFact(l: ByTarget) returns (t: string, m: string, b: BinSettings)
    requires TightTargets(l) && l != map[]
    ensures HasTarget(l, t, m, b)
  {
    t :| t in l;
    m :| m in l[t];
    b :| b in l[t][m];
  }

  /** Tight results recording the same facts have the same annotations. */
  lemma AnnotationsDeterminedByFacts(r1: Options, r2: Options)
    requires Tight(r1) && Tight(r2)
    requires forall a, t, m, b :: Has(r1, a, t, m, b) <==> Has(r2, a, t, m, b)
    ensures r1.Keys == r2.Keys
  {
    forall a | a in r1 ensures a in r2 {
      var t, m, b := SomeFact(r1[a][DownsizedTo]);
      assert Has(r1, a, t, m, b);
    }
    forall a | a in r2 ensures a in r1 {
      var t, m, b := SomeFact(r2[a][DownsizedTo]);
      assert Has(r2, a, t, m, b);
    }
  }

  /** An annotation's entry is its single "downsized_to" level. */
  lemma SingleLevel(e: map<string, ByTarget>)
    requires e.Keys == {DownsizedTo}
    ensures e == map[DownsizedTo := e[DownsizedTo]]
  {
  }

  /** Tight results recording the same facts agree on each annotation. */
  lemma EntryDeterminedByFacts(r1: Options, r2: Options, a: string)
    requires Tight(r1) && Tight(r2) && a in r1 && a in r2
    requires forall t, m, b :: Has(r1, a, t, m, b) <==> Has(r2, a, t, m, b)
    ensures r1[a] == r2[a]
  {
    var e1, e2 := r1[a], r2[a];
    assert e1.Keys == {DownsizedTo} && TightTargets(e1[DownsizedTo]);
    assert e2.Keys == {DownsizedTo} && TightTargets(e2[DownsizedTo]);
    forall t, m, b ensures HasTarget(e1[DownsizedTo], t, m, b) <==> HasTarget(e2[DownsizedTo], t, m, b) {
      assert Has(r1, a, t, m, b) <==> Has(r2, a, t, m, b);
    }
    TargetsDeterminedByFacts(e1[DownsizedTo], e2[DownsizedTo]);
    SingleLevel(e1);
    SingleLevel(e2);
  }

  /** A tight result is determined by which settings it records: two tight
      results that record the same facts are equal. Hence the result does
      not depend on the order of the input or on repeated targets. */
  lemma TightIsDeterminedByFacts(r1: Options, r2: Options)
    requires Tight(r1) && Tight(r2)
    requires forall a, t, m, b :: Has(r1, a, t, m, b) <==> Has(r2, a, t, m, b)
    ensures r1 == r2
  {
    AnnotationsDeterminedByFacts(r1, r2);
    forall a | a in r1 ensures r1[a] == r2[a] {
      EntryDeterminedByFacts(r1, r2, a);
    }
  }
}
