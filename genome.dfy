/** The reference genome layout (models/Genome.py): the 24 chromosomes of the
    fixed table laid end to end, each with its offset in the concatenated
    genome, its centre and the centre of its centromere. */
module Genomes {

  /** One row of the chromosome table. */
  datatype TableRow = TableRow(name: string, len: int, centromereStart: int, centromereEnd: int)

  /** One row of `Genome.chrom`: the table row plus the derived columns. */
  datatype Chromosome = Chromosome(
    name: string, len: int, centromereStart: int, centromereEnd: int,
    offset: int, center: int, centromereOffset: int)

  datatype Genome = Genome(chrom: seq<Chromosome>, length: int)

  /** `chromosome_data`, row by row. */
  const ChromosomeTable: seq<TableRow> := [
    TableRow("chr1", 249250621, 121535434, 124535434),
    TableRow("chr2", 243199373, 92326171, 95326171),
    TableRow("chr3", 198022430, 90504854, 93504854),
    TableRow("chr4", 191154276, 49660117, 52660117),
    TableRow("chr5", 180915260, 46405641, 49405641),
    TableRow("chr6", 171115067, 58830166, 61830166),
    TableRow("chr7", 159138663, 58054331, 61054331),
    TableRow("chr8", 146364022, 43838887, 46838887),
    TableRow("chr9", 141213431, 47367679, 50367679),
    TableRow("chr10", 135534747, 39254935, 42254935),
    TableRow("chr11", 135006516, 51644205, 54644205),
    TableRow("chr12", 133851895, 34856694, 37856694),
    TableRow("chr13", 115169878, 16000000, 19000000),
    TableRow("chr14", 107349540, 16000000, 19000000),
    TableRow("chr15", 102531392, 17000000, 20000000),
    TableRow("chr16", 90354753, 35335801, 38335801),
    TableRow("chr17", 81195210, 22263006, 25263006),
    TableRow("chr18", 78077248, 15460898, 18460898),
    TableRow("chr19", 59128983, 24681782, 27681782),
    TableRow("chr20", 63025520, 26369569, 29369569),
    TableRow("chr21", 48129895, 11288129, 14288129),
    TableRow("chr22", 51304566, 13000000, 16000000),
    TableRow("chrX", 155270560, 58632012, 61632012),
    TableRow("chrY", 59373566, 10104553, 13104553)
  ]

  /** The `len` column. */
  function Lens(table: seq<TableRow>): (r: seq<int>)
    ensures |r| == |table|
    ensures forall i :: 0 <= i < |table| ==> r[i] == table[i].len
  {
    seq(|table|, i requires 0 <= i < |table| => table[i].len)
  }

  /** The sum of a sequence, the reference for offsets and length. */
  function Sum(s: seq<int>): int {
    if |s| == 0 then 0 else Sum(s[..|s| - 1]) + s[|s| - 1]
  }

  /** `np.cumsum`: the running totals. */
  function Cumsum(s: seq<int>): (r: seq<int>)
    ensures |r| == |s|
  {
    if |s| == 0 then [] else Cumsum(s[..|s| - 1]) + [Sum(s)]
  }

  /** Each running total is the sum of the prefix that ends at it. */
  lemma {:induction false} CumsumIsPrefixSums(s: seq<int>)
    ensures forall i :: 0 <= i < |s| ==> Cumsum(s)[i] == Sum(s[..i + 1])
  {
    if |s| > 0 {
      var p := s[..|s| - 1];
      CumsumIsPrefixSums(p);
      forall i | 0 <= i < |s|
        ensures Cumsum(s)[i] == Sum(s[..i + 1])
      {
        if i < |p| {
          assert p[..i + 1] == s[..i + 1];
        } else {
          assert s[..i + 1] == s;
        }
      }
    }
  }

  /** `[0] + cumsum(len)[:-1]`: where each chromosome starts. */
  function Offsets(table: seq<TableRow>): (r: seq<int>)
    requires |table| > 0
    ensures |r| == |table|
    ensures forall i :: 0 <= i < |table| ==> r[i] == Sum(Lens(table)[..i])
  {
    var c := Cumsum(Lens(table));
    CumsumIsPrefixSums(Lens(table));
    var r := [0] + c[..|c| - 1];
    assert forall i :: 0 < i < |table| ==> r[i] == c[i - 1] && Lens(table)[..i] == Lens(table)[..(i - 1) + 1];
    r
  }

  /** `Genome.__init__` applied to a table: the derived columns and the
      total length. */
  function BuildGenome(table: seq<TableRow>): (g: Genome)
    requires |table| > 0
    ensures |g.chrom| == |table|
    ensures forall i :: 0 <= i < |table| ==>
      var c := g.chrom[i];
      && c.name == table[i].name && c.len == table[i].len
      && c.centromereStart == table[i].centromereStart && c.centromereEnd == table[i].centromereEnd
      && c.offset == Sum(Lens(table)[..i])
      && c.center == c.offset + c.len / 2
      && c.centromereOffset == c.offset + (c.centromereStart + c.centromereEnd) / 2
    ensures g.length == Sum(Lens(table))
  {
    var offsets := Offsets(table);
    var chrom := seq(|table|, i requires 0 <= i < |table| =>
      Chromosome(table[i].name, table[i].len, table[i].centromereStart, table[i].centromereEnd,
                 offsets[i], offsets[i] + table[i].len / 2,
                 offsets[i] + (table[i].centromereStart + table[i].centromereEnd) / 2));
    var last := |table| - 1;
    assert Lens(table)[..last + 1] == Lens(table);
    Genome(chrom, offsets[last] + table[last].len)
  }

  /** `Genome()`: the genome of the fixed table. */
  function NewGenome(): (g: Genome)
    ensures |g.chrom| == 24
    ensures g == BuildGenome(ChromosomeTable)
  {
    BuildGenome(ChromosomeTable)
  }

  /** `len(genome)`: the total length. */
  function GenomeLength(g: Genome): (r: int)
    ensures r == g.length
  {
    g.length
  }

  /** The offsets form the recurrence offset[0] = 0, offset[i+1] = offset[i] + len[i]. */
  lemma OffsetRecurrence(table: seq<TableRow>)
    requires |table| > 0
    ensures BuildGenome(table).chrom[0].offset == 0
    ensures forall i :: 0 <= i < |table| - 1 ==>
      BuildGenome(table).chrom[i + 1].offset == BuildGenome(table).chrom[i].offset + table[i].len
  {
    var g := BuildGenome(table);
    var l := Lens(table);
    assert l[..0] == [];
    forall i | 0 <= i < |table| - 1
      ensures g.chrom[i + 1].offset == g.chrom[i].offset + table[i].len
    {
      assert l[..i + 1][..i] == l[..i];
    }
  }

  /** The total length is where the last chromosome ends. */
  lemma LengthIsEndOfLastChromosome(table: seq<TableRow>)
    requires |table| > 0
    ensures BuildGenome(table).length
         == BuildGenome(table).chrom[|table| - 1].offset + table[|table| - 1].len
  {
    var l := Lens(table);
    assert l[..|table|] == l;
    assert l[..|table|][..|table| - 1] == l[..|table| - 1];
  }

  /** Every row has a positive length, and a centromere that starts before it
      ends and ends within the chromosome. */
  predicate WellFormed(table: seq<TableRow>) {
    forall i :: 0 <= i < |table| ==>
      0 < table[i].len && 0 <= table[i].centromereStart < table[i].centromereEnd <= table[i].len
  }

  lemma ChromosomeTableWellFormed()
    ensures WellFormed(ChromosomeTable)
    ensures |ChromosomeTable| == 24
    ensures ChromosomeTable[0].name == "chr1" && ChromosomeTable[21].name == "chr22"
    ensures ChromosomeTable[22].name == "chrX" && ChromosomeTable[23].name == "chrY"
  {
  }

  /** With positive lengths, offsets are strictly increasing: chromosome i
      starts before chromosome j whenever i < j. */
  lemma {:induction false} OffsetsIncreasing(table: seq<TableRow>, i: int, j: int)
    requires |table| > 0 && WellFormed(table)
    requires 0 <= i < j < |table|
    ensures BuildGenome(table).chrom[i].offset < BuildGenome(table).chrom[j].offset
    decreases j - i
  {
    OffsetRecurrence(table);
    if i + 1 < j {
      OffsetsIncreasing(table, i + 1, j);
    }
  }

  /** In a well-formed table every centre and every centromere centre lies
      inside its own chromosome's span [offset, offset + len), so the
      chromosomes' spans, and the points in them, never overlap. */
  lemma CentresWithinChromosome(table: seq<TableRow>, i: int)
    requires |table| > 0 && WellFormed(table)
    requires 0 <= i < |table|
    ensures var c := BuildGenome(table).chrom[i];
      && c.offset <= c.center < c.offset + c.len
      && c.offset <= c.centromereOffset < c.offset + c.len
  {
  }

  /** The genome's length is the sum of the chromosome lengths, and every
      chromosome of the fixed genome ends at or before it. */
  lemma {:induction false} ChromosomesWithinGenome(table: seq<TableRow>, i: int)
    requires |table| > 0 && WellFormed(table)
    requires 0 <= i < |table|
    ensures BuildGenome(table).chrom[i].offset + table[i].len <= BuildGenome(table).length
  {
    LengthIsEndOfLastChromosome(table);
    OffsetRecurrence(table);
    if i + 1 < |table| - 1 {
      OffsetsIncreasing(table, i + 1, |table| - 1);
    }
  }
}
