/** The SMLA_CIO organization table: for each device density, its size,
    data width and the number of instances at each level. */
module SmlaCioOrg {
  import opened Wrappers
  import opened PowerOfTwo
  import opened SmlaCio
  import opened SmlaCioSpeed

  /** The device densities, in declaration order. */
  datatype Org = Org1Gb | Org2Gb | Org4Gb | Org8Gb

  /** The value of `Org::MAX`. */
  const OrgCount: nat := 4

  const AllOrgs: seq<Org> := [Org1Gb, Org2Gb, Org4Gb, Org8Gb]

  function OrgIndex(o: Org): (i: nat)
    ensures i < OrgCount == |AllOrgs|
    ensures AllOrgs[i] == o
  {
    match o
    case Org1Gb => 0
    case Org2Gb => 1
    case Org4Gb => 2
    case Org8Gb => 3
  }

  /** One row of `org_table`: `size` in megabits, `dq` the data width in
      bits, and `count[i]` the instances of the level whose integer value is i
      under one instance of its parent. */
  datatype OrgEntry = OrgEntry(size: int, dq: int, count: seq<int>)

  /** An entry carries one count per level. */
  predicate WellFormed(e: OrgEntry) {
    |e.count| == LevelCount
  }

  /** `org_table`; the channel count is left 0 here and set later from the
      configured channel number. Every organization has a single rank. */
  const OrgTable: seq<OrgEntry> := [
    OrgEntry( 256, 128, [0, 1, 4, Pow2(12), Pow2(7)]),
    OrgEntry( 512, 128, [0, 1, 4, Pow2(13), Pow2(7)]),
    OrgEntry(1024, 128, [0, 1, 4, Pow2(14), Pow2(7)]),
    OrgEntry(2048, 128, [0, 1, 4, Pow2(15), Pow2(7)])
  ]

  /** The table row of organization o. */
  function OrgRow(o: Org): (e: OrgEntry)
    ensures WellFormed(e)
    ensures e.dq == ChannelWidth
  {
    OrgTable[OrgIndex(o)]
  }

  /** The number of level-l instances under one parent instance. */
  function Count(e: OrgEntry, l: Level): int
    requires WellFormed(e)
  {
    e.count[LevelIndex(l)]
  }

  /** The bits one channel's devices hold: ranks × banks × rows × columns × dq. */
  function ChannelBits(e: OrgEntry): int
    requires WellFormed(e)
  {
    Count(e, Rank) * Count(e, Bank) * Count(e, Row) * Count(e, Column) * e.dq
  }

  /** The fixed part of every organization: one rank, four banks, 2^7
      columns and a 128-bit data width, with the channel count unset. */
  lemma OrgFixedShape(o: Org)
    ensures Count(OrgRow(o), Channel) == 0
    ensures Count(OrgRow(o), Rank) == 1
    ensures Count(OrgRow(o), Bank) == 4
    ensures Count(OrgRow(o), Column) == Pow2(7)
    ensures OrgRow(o).dq == 128
  {
  }

  /** Every step up in density doubles the size and the row count: the
      organization with integer value i has 256 × 2^i megabits and 2^(12+i) rows. */
  lemma OrgRowsDouble(o: Org)
    ensures OrgRow(o).size == 256 * Pow2(OrgIndex(o))
    ensures Count(OrgRow(o), Row) == Pow2(12 + OrgIndex(o))
  {
  }

  /** Every count below the channel is a power of two, with the exponents
      0 (rank), 2 (bank), 12 + i (row) and 7 (column), and the data width is 2^7. */
  lemma OrgCountsArePowersOfTwo(o: Org)
    ensures ExactLog2(Count(OrgRow(o), Rank)) == Some(0)
    ensures ExactLog2(Count(OrgRow(o), Bank)) == Some(2)
    ensures ExactLog2(Count(OrgRow(o), Row)) == Some(12 + OrgIndex(o))
    ensures ExactLog2(Count(OrgRow(o), Column)) == Some(7)
    ensures ExactLog2(OrgRow(o).dq) == Some(7)
    ensures forall l :: l != Channel ==> ExactLog2(Count(OrgRow(o), l)).Some?
  {
    OrgFixedShape(o);
    OrgRowsDouble(o);
    var e := OrgRow(o);
    Log2OfCount(e.count[1], 0);
    Log2OfCount(e.count[2], 2);
    Log2OfCount(e.count[3], 12 + OrgIndex(o));
    Log2OfCount(e.count[4], 7);
    Log2OfCount(e.dq, 7);
  }

  /** A count written as 1 << k has exact logarithm k. */
  lemma Log2OfCount(n: int, k: nat)
    requires n == Pow2(k)
    ensures ExactLog2(n) == Some(k)
  {
    ExactLog2OfPow2(k);
  }

  /** The stated size agrees with the geometry: size × 2^20 bits is exactly
      ranks × banks × rows × columns × dq. */
  lemma OrgCapacityMatchesSize(o: Org)
    ensures OrgRow(o).size * Pow2(20) == ChannelBits(OrgRow(o))
  {
    OrgFixedShape(o);
    OrgRowsDouble(o);
  }

}
