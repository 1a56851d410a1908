/** The downsizing targets (CommonArrayType.py): each names the smallest array
    design to which data of several designs can be reduced, and lists the
    designs that target spans. */
module CommonArrayTypes {
  import opened ArrayTypes
  import opened Seqs

  datatype CommonArrayType = EpicV2ToHm450k | EpicV2ToMsa48

  /** The enum value of a member. */
  function Value(c: CommonArrayType): string {
    match c
    case EpicV2ToHm450k => "EPIC_v2_to_HM450K"
    case EpicV2ToMsa48 => "EPIC_v2_to_MSA48"
  }

  /** The enum name of a member. */
  function Name(c: CommonArrayType): string {
    match c
    case EpicV2ToHm450k => "EPIC_v2_to_HM450K"
    case EpicV2ToMsa48 => "EPIC_v2_to_MSA48"
  }

  /** Each member's value is its name, so mapping values to names over these
      members is the identity. */
  lemma ValueIsName(c: CommonArrayType)
    ensures Value(c) == Name(c)
  {
  }

  /** The sequence with every occurrence of `a` removed. */
  function Without(s: seq<ArrayType>, a: ArrayType): (r: seq<ArrayType>)
    ensures forall b :: b in r <==> b in s && b != a
  {
    if s == [] then [] else (if s[0] == a then [] else [s[0]]) + Without(s[1..], a)
  }

  /** `get_array_types`: the designs a downsizing target spans. Every listed
      design is supported, none is listed twice, and every target spans
      450K, EPIC and EPIC v2. The `ValueError` branch of the source is
      unreachable over this closed enumeration. */
  function GetArrayTypes(smallestArray: CommonArrayType): (r: seq<ArrayType>)
    ensures forall a :: a in r ==> a in ValidArrayTypes()
    ensures NoDuplicates(r)
    ensures Illumina450k in r && IlluminaEpic in r && IlluminaEpicV2 in r
    ensures IlluminaMsa48 in r <==> smallestArray == EpicV2ToMsa48
  {
    match smallestArray
    case EpicV2ToHm450k => [Illumina450k, IlluminaEpic, IlluminaEpicV2]
    case EpicV2ToMsa48 => [IlluminaMsa48, Illumina450k, IlluminaEpic, IlluminaEpicV2]
  }

  /** The HM450K list is the MSA48 list with MSA48 taken out, order kept. */
  lemma Hm450kIsMsa48WithoutMsa48()
    ensures GetArrayTypes(EpicV2ToHm450k) == Without(GetArrayTypes(EpicV2ToMsa48), IlluminaMsa48)
  {
    var s := GetArrayTypes(EpicV2ToMsa48);
    assert s[1..][1..][1..][1..] == [];
    assert Without(s[1..][1..][1..], IlluminaMsa48) == [IlluminaEpicV2];
    assert Without(s[1..][1..], IlluminaMsa48) == [IlluminaEpic, IlluminaEpicV2];
  }
}
