/** The Illumina array designs (enums/ArrayType.py): their enum values and
    names, inference of the design from the probe count of an IDAT file, the
    list of designs the analysis supports, lookup of a member from a string
    and the human-readable labels. */
module ArrayTypes {
  import opened Wrappers
  import opened Text

  datatype ArrayType =
    | Illumina27k
    | Illumina450k
    | IlluminaEpic
    | IlluminaEpicV2
    | IlluminaMsa48
    | IlluminaMouse
    | Unknown

  /** The enum value of a member (`member.value`). */
  function Value(a: ArrayType): string {
    match a
    case Illumina27k => "27k"
    case Illumina450k => "450k"
    case IlluminaEpic => "epic_v1"
    case IlluminaEpicV2 => "epic_v2"
    case IlluminaMsa48 => "msa48"
    case IlluminaMouse => "mouse"
    case Unknown => "unknown"
  }

  /** The enum name of a member (`member.name`). */
  function Name(a: ArrayType): string {
    match a
    case Illumina27k => "ILLUMINA_27K"
    case Illumina450k => "ILLUMINA_450K"
    case IlluminaEpic => "ILLUMINA_EPIC"
    case IlluminaEpicV2 => "ILLUMINA_EPIC_V2"
    case IlluminaMsa48 => "ILLUMINA_MSA48"
    case IlluminaMouse => "ILLUMINA_MOUSE"
    case Unknown => "UNKNOWN"
  }

  /** Position of a member in the declaration. */
  function Ordinal(a: ArrayType): nat {
    match a
    case Illumina27k => 0
    case Illumina450k => 1
    case IlluminaEpic => 2
    case IlluminaEpicV2 => 3
    case IlluminaMsa48 => 4
    case IlluminaMouse => 5
    case Unknown => 6
  }

  /** The enum is declared `@unique`: no two members share a value, and no
      two share a name. */
  lemma ValuesAndNamesDistinct(a: ArrayType, b: ArrayType)
    requires a != b
    ensures Value(a) != Value(b) && Name(a) != Name(b)
  {
  }

  lemma ValueDeterminesMember()
    ensures forall a, b :: Value(a) == Value(b) ==> a == b
  {
    forall a, b | a != b
      ensures Value(a) != Value(b)
    {
      ValuesAndNamesDistinct(a, b);
    }
  }

  lemma NameDeterminesMember()
    ensures forall a, b :: Name(a) == Name(b) ==> a == b
  {
    forall a, b | a != b
      ensures Name(a) != Name(b)
    {
      ValuesAndNamesDistinct(a, b);
    }
  }

  /** `members_list`: every member once, in declaration order. */
  function MembersList(): (r: seq<ArrayType>)
    ensures |r| == 7
    ensures forall i :: 0 <= i < |r| ==> Ordinal(r[i]) == i
    ensures forall a :: Ordinal(a) < |r| && r[Ordinal(a)] == a
  {
    [Illumina27k, Illumina450k, IlluminaEpic, IlluminaEpicV2, IlluminaMsa48, IlluminaMouse, Unknown]
  }

  lemma EveryMemberListed()
    ensures forall a :: a in MembersList()
  {
    forall a ensures a in MembersList() {
      assert MembersList()[Ordinal(a)] == a;
    }
  }

  /** The designs the analysis cannot process. */
  predicate Unsupported(a: ArrayType) {
    a == Illumina27k || a == IlluminaMouse || a == Unknown
  }

  /** `valid_array_types`: exactly the members that are not unsupported,
      each once, in declaration order. */
  function ValidArrayTypes(): (r: seq<ArrayType>)
    ensures |r| == 4
    ensures forall a :: a in r <==> !Unsupported(a)
    ensures forall i, j :: 0 <= i < j < |r| ==> Ordinal(r[i]) < Ordinal(r[j])
  {
    [Illumina450k, IlluminaEpic, IlluminaEpicV2, IlluminaMsa48]
  }

  /** One inclusive probe-count range and the design it indicates. */
  datatype RangeRule = RangeRule(lo: int, hi: int, design: ArrayType)

  predicate Covers(rule: RangeRule, n: int) {
    rule.lo <= n <= rule.hi
  }

  /** The ranges of `from_probe_count`, in the order in which it tests them. */
  const ProbeCountRules: seq<RangeRule> := [
    RangeRule(622000, 623000, Illumina450k),
    RangeRule(1050000, 1053000, IlluminaEpic),
    RangeRule(1032000, 1033000, IlluminaEpic),
    RangeRule(1100000, 1108000, IlluminaEpicV2),
    RangeRule(384400, 384600, IlluminaMsa48),
    RangeRule(55200, 55400, Illumina27k),
    RangeRule(315000, 362000, IlluminaMouse)
  ]

  /** First-match lookup in a range table; `Unknown` when no range covers `n`. */
  function FirstMatch(rules: seq<RangeRule>, n: int): (r: ArrayType)
    ensures r != Unknown && (forall i :: 0 <= i < |rules| ==> rules[i].design != Unknown)
      ==> exists i :: 0 <= i < |rules| && Covers(rules[i], n) && rules[i].design == r
  {
    if rules == [] then Unknown
    else if Covers(rules[0], n) then rules[0].design
    else FirstMatch(rules[1..], n)
  }

  /** No count is covered by two rules of the table. */
  predicate Disjoint(rules: seq<RangeRule>) {
    forall i, j :: 0 <= i < j < |rules| ==> rules[i].hi < rules[j].lo || rules[j].hi < rules[i].lo
  }

  /** `from_probe_count`: the chain of range tests of the source. Counts below
      or above every range, including zero and negative counts, give `Unknown`;
      it never fails. */
  function FromProbeCount(n: int): (r: ArrayType)
    ensures n < 55200 || n > 1108000 ==> r == Unknown
  {
    if 622000 <= n <= 623000 then Illumina450k
    else if 1050000 <= n <= 1053000 then IlluminaEpic
    else if 1032000 <= n <= 1033000 then IlluminaEpic
    else if 1100000 <= n <= 1108000 then IlluminaEpicV2
    else if 384400 <= n <= 384600 then IlluminaMsa48
    else if 55200 <= n <= 55400 then Illumina27k
    else if 315000 <= n <= 362000 then IlluminaMouse
    else Unknown
  }

  /** Each design is returned exactly for its own inclusive ranges, both
      boundaries included; EPIC has two ranges. */
  lemma FromProbeCountRanges(n: int)
    ensures FromProbeCount(n) == Illumina450k <==> 622000 <= n <= 623000
    ensures FromProbeCount(n) == IlluminaEpic <==> 1050000 <= n <= 1053000 || 1032000 <= n <= 1033000
    ensures FromProbeCount(n) == IlluminaEpicV2 <==> 1100000 <= n <= 1108000
    ensures FromProbeCount(n) == IlluminaMsa48 <==> 384400 <= n <= 384600
    ensures FromProbeCount(n) == Illumina27k <==> 55200 <= n <= 55400
    ensures FromProbeCount(n) == IlluminaMouse <==> 315000 <= n <= 362000
    ensures n <= 55199 ==> FromProbeCount(n) == Unknown
  {
  }

  lemma ProbeCountRulesDisjoint()
    ensures Disjoint(ProbeCountRules)
  {
  }

  /** When every rule covering the count names the same design, and one does,
      the first match is that design. */
  lemma {:induction false} FirstMatchOfCovering(rules: seq<RangeRule>, n: int, k: nat, d: ArrayType)
    requires k < |rules| && Covers(rules[k], n)
    requires forall i :: 0 <= i < |rules| && Covers(rules[i], n) ==> rules[i].design == d
    ensures FirstMatch(rules, n) == d
  {
    if !Covers(rules[0], n) {
      FirstMatchOfCovering(rules[1..], n, k - 1, d);
    }
  }

  lemma {:induction false} FirstMatchNone(rules: seq<RangeRule>, n: int)
    requires forall i :: 0 <= i < |rules| ==> !Covers(rules[i], n)
    ensures FirstMatch(rules, n) == Unknown
  {
    if rules != [] {
      FirstMatchNone(rules[1..], n);
    }
  }

  /** The order in which disjoint ranges are tested never changes the answer:
      any rearrangement of the table gives the same design for every count. */
  lemma LookupOrderIrrelevant(rules: seq<RangeRule>, reordered: seq<RangeRule>, n: int)
    requires Disjoint(rules)
    requires multiset(rules) == multiset(reordered)
    ensures FirstMatch(rules, n) == FirstMatch(reordered, n)
  {
    if k :| 0 <= k < |rules| && Covers(rules[k], n) {
      assert forall i :: 0 <= i < |rules| && Covers(rules[i], n) ==> rules[i] == rules[k];
      forall i | 0 <= i < |reordered| && Covers(reordered[i], n)
        ensures reordered[i].design == rules[k].design
      {
        assert reordered[i] in multiset(rules);
        var a :| 0 <= a < |rules| && rules[a] == reordered[i];
      }
      assert rules[k] in multiset(reordered);
      var k' :| 0 <= k' < |reordered| && reordered[k'] == rules[k];
      FirstMatchOfCovering(rules, n, k, rules[k].design);
      FirstMatchOfCovering(reordered, n, k', rules[k].design);
    } else {
      forall i | 0 <= i < |reordered| ensures !Covers(reordered[i], n) {
        assert reordered[i] in multiset(rules);
      }
      FirstMatchNone(rules, n);
      FirstMatchNone(reordered, n);
    }
  }

  /** One step of the lookup: test the head rule, else look in the rest. */
  lemma FirstMatchCons(rule: RangeRule, rest: seq<RangeRule>, n: int)
    ensures FirstMatch([rule] + rest, n) == if Covers(rule, n) then rule.design else FirstMatch(rest, n)
  {
    assert ([rule] + rest)[1..] == rest;
  }

  /** The chain of tests of `from_probe_count` is the first-match lookup in its
      rule table. */
  lemma FromProbeCountIsFirstMatch(n: int)
    ensures FirstMatch(ProbeCountRules, n) == FromProbeCount(n)
  {
    var r0, r1, r2 := RangeRule(622000, 623000, Illumina450k), RangeRule(1050000, 1053000, IlluminaEpic), RangeRule(1032000, 1033000, IlluminaEpic);
    var r3, r4 := RangeRule(1100000, 1108000, IlluminaEpicV2), RangeRule(384400, 384600, IlluminaMsa48);
    var r5, r6 := RangeRule(55200, 55400, Illumina27k), RangeRule(315000, 362000, IlluminaMouse);
    var t6 := [r6];
    var t5 := [r5] + t6;
    var t4 := [r4] + t5;
    var t3 := [r3] + t4;
    var t2 := [r2] + t3;
    var t1 := [r1] + t2;
    assert ProbeCountRules == [r0] + t1;
    FirstMatchCons(r6, [], n);
    assert t6 == [r6] + [];
    FirstMatchCons(r5, t6, n);
    FirstMatchCons(r4, t5, n);
    FirstMatchCons(r3, t4, n);
    FirstMatchCons(r2, t3, n);
    FirstMatchCons(r1, t2, n);
    FirstMatchCons(r0, t1, n);
  }

  /** Testing the ranges of `from_probe_count` in any other order gives the
      same design for every count. */
  lemma FromProbeCountOrderIrrelevant(reordered: seq<RangeRule>, n: int)
    requires multiset(reordered) == multiset(ProbeCountRules)
    ensures FirstMatch(reordered, n) == FromProbeCount(n)
  {
    FromProbeCountIsFirstMatch(n);
    ProbeCountRulesDisjoint();
    LookupOrderIrrelevant(ProbeCountRules, reordered, n);
  }

  /** Lookup by enum value (`cls(value)`). */
  function MemberByValue(members: seq<ArrayType>, s: string): (r: Option<ArrayType>)
    ensures r.Some? ==> r.value in members && Value(r.value) == s
    ensures r.None? ==> forall a :: a in members ==> Value(a) != s
  {
    if members == [] then None
    else if Value(members[0]) == s then Some(members[0])
    else MemberByValue(members[1..], s)
  }

  /** Lookup by enum name (`getattr(cls, name)`). */
  function MemberByName(members: seq<ArrayType>, s: string): (r: Option<ArrayType>)
    ensures r.Some? ==> r.value in members && Name(r.value) == s
    ensures r.None? ==> forall a :: a in members ==> Name(a) != s
  {
    if members == [] then None
    else if Name(members[0]) == s then Some(members[0])
    else MemberByName(members[1..], s)
  }

  /** `get_member_from_string`: the member with this value; failing that, the
      member whose name is the upper-cased string; failing that, ValueError. */
  function GetMemberFromString(s: string): (r: Result<ArrayType, string>)
    ensures r.Ok? ==> Value(r.value) == s || (Name(r.value) == Upper(s) && forall a :: Value(a) != s)
    ensures r.Err? <==> forall a :: Value(a) != s && Name(a) != Upper(s)
  {
    EveryMemberListed();
    match MemberByValue(MembersList(), s)
    case Some(a) => Ok(a)
    case None =>
      match MemberByName(MembersList(), Upper(s))
      case Some(a) => Ok(a)
      case None => Err(s)
  }

  /** Every member is found from its own value. */
  lemma GetMemberFromValue(a: ArrayType)
    ensures GetMemberFromString(Value(a)) == Ok(a)
  {
    var r := GetMemberFromString(Value(a));
    if r.value != a {
      ValuesAndNamesDistinct(a, r.value);
    }
  }

  /** Every member is found from its name in any ASCII casing (for example
      "illumina_epic" gives ILLUMINA_EPIC). */
  lemma GetMemberFromAnyCaseName(a: ArrayType, s: string)
    requires Upper(s) == Name(a)
    ensures GetMemberFromString(s) == Ok(a)
  {
    NameDeterminesMember();
    match MemberByValue(MembersList(), s)
    case Some(b) =>
      // only "unknown" has the length of a name, and its capitals are UNKNOWN
      assert |Value(b)| == |Name(a)|;
      assert a == Unknown;
      assert Upper(s)[0] == UpperChar(s[0]) == 'U';
      assert b == Unknown;
    case None =>
      assert MembersList()[Ordinal(a)] == a;
  }

  /** `__str__`: the enum value, which `get_member_from_string` maps back to the member. */
  function ToString(a: ArrayType): (r: string)
    ensures GetMemberFromString(r) == Ok(a)
  {
    GetMemberFromValue(a);
    Value(a)
  }

  /** `make_pretty_array_type_string`: the fixed label of the five human
      designs, "Unknown Array Type" for every other member. */
  function PrettyArrayTypeString(a: ArrayType): (r: string)
    ensures r == "Unknown Array Type" <==> a == IlluminaMouse || a == Unknown
  {
    match a
    case Illumina27k => "HumanMethylation27"
    case Illumina450k => "Infinium HumanMethylation450K"
    case IlluminaEpic => "Infinium MethylationEPIC v1.0"
    case IlluminaEpicV2 => "Infinium MethylationEPIC v2.0"
    case IlluminaMsa48 => "Infinium Methylation Screening Array-48"
    case _ => "Unknown Array Type"
  }

  /** Designs with a label of their own are told apart by it. */
  lemma PrettyArrayTypeStringInjective(a: ArrayType, b: ArrayType)
    requires a != b && PrettyArrayTypeString(a) == PrettyArrayTypeString(b)
    ensures a in {IlluminaMouse, Unknown} && b in {IlluminaMouse, Unknown}
  {
  }

  /** `value_to_key_mapping`: a map from the value of each listed member to its
      name, with no other keys. */
  function ValueToKeyMapping(arrayTypes: seq<ArrayType>): (r: map<string, string>)
    ensures r.Keys == set a | a in arrayTypes :: Value(a)
    ensures forall a :: a in arrayTypes ==> Value(a) in r && r[Value(a)] == Name(a)
  {
    ValueDeterminesMember();
    map a | a in arrayTypes :: Value(a) := Name(a)
  }
}
