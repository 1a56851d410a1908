/** The preprocessing methods a user may choose (PreprocessingMethods.py) and
    the case-insensitive lookup of a method from its name. */
module PreprocessingMethods {
  import opened Wrappers
  import opened Text

  datatype PreprocessingMethod = Illumina | Noob | Swan | Raw

  function Value(m: PreprocessingMethod): string {
    match m
    case Illumina => "illumina"
    case Noob => "noob"
    case Swan => "swan"
    case Raw => "raw"
  }

  /** Position of a member in the declaration. */
  function Ordinal(m: PreprocessingMethod): nat {
    match m
    case Illumina => 0
    case Noob => 1
    case Swan => 2
    case Raw => 3
  }

  /** `list()`: the four members in declaration order, each once. */
  function List(): (r: seq<PreprocessingMethod>)
    ensures |r| == 4
    ensures forall m :: Ordinal(m) < |r| && r[Ordinal(m)] == m
  {
    [Illumina, Noob, Swan, Raw]
  }

  /** No two members share a value. */
  lemma ValueInjective(a: PreprocessingMethod, b: PreprocessingMethod)
    requires Value(a) == Value(b)
    ensures a == b
  {
  }

  /** The first member of `ms` whose value is `v`. */
  function FindByValue(ms: seq<PreprocessingMethod>, v: string): (r: Option<PreprocessingMethod>)
    ensures r.Some? ==> r.value in ms && Value(r.value) == v
    ensures r.None? ==> forall m :: m in ms ==> Value(m) != v
  {
    if ms == [] then None
    else if Value(ms[0]) == v then Some(ms[0])
    else FindByValue(ms[1..], v)
  }

  /** `get_enum_from_string`: the member whose value is the lower-cased
      string, or None when there is none; it never fails. */
  function GetEnumFromString(s: string): (r: Option<PreprocessingMethod>)
    ensures r.Some? <==> exists m :: Value(m) == Lower(s)
    ensures r.Some? ==> Value(r.value) == Lower(s)
  {
    FindByValue(List(), Lower(s))
  }

  /** The lookup is case-insensitive: every casing of a member's value finds
      that member. */
  lemma GetEnumIgnoresCase(s: string, m: PreprocessingMethod)
    requires Lower(s) == Value(m)
    ensures GetEnumFromString(s) == Some(m)
  {
    ValueInjective(GetEnumFromString(s).value, m);
  }

  /** Round trip: the value of a member finds that member. */
  lemma GetEnumRoundTrip(m: PreprocessingMethod)
    ensures GetEnumFromString(Value(m)) == Some(m)
  {
    LowerOfLowerCase(Value(m));
    GetEnumIgnoresCase(Value(m), m);
  }
}
