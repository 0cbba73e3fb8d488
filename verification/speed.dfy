/** The SMLA_CIO speed table: for each speed grade, its data rate and its
    timing parameters in clock cycles. The floating-point clock frequency and
    period of each row are not part of this model. */
module SmlaCioSpeed {

  /** The speed grades, in declaration order. */
  datatype Speed = Speed200 | Speed266

  /** The value of `Speed::MAX`. */
  const SpeedCount: nat := 2

  const AllSpeeds: seq<Speed> := [Speed200, Speed266]

  function SpeedIndex(s: Speed): (i: nat)
    ensures i < SpeedCount == |AllSpeeds|
    ensures AllSpeeds[i] == s
  {
    match s
    case Speed200 => 0
    case Speed266 => 1
  }

  /** The `channel_width` constant: the data width of one channel in bits. */
  const ChannelWidth: int := 128

  /** The integer fields of one row of `speed_table`, in the source's order:
      the data rate, then every timing parameter in clock cycles. */
  datatype SpeedEntry = SpeedEntry(
    rate: int,
    nBL: int, nCCD: int, nDQSCK: int,
    nCL: int, nRCD: int, nRP: int, nCWL: int,
    nRAS: int, nRC: int,
    nRTP: int, nRTW: int, nWTR: int, nWR: int,
    nRRD: int, nTAW: int,
    nRFC: int, nREFI: int,
    nCKE: int, nXP: int,
    nCKESR: int, nXSR: int)

  /** No timing parameter is a negative number of cycles. */
  predicate NonNegative(e: SpeedEntry) {
    && e.nBL >= 0 && e.nCCD >= 0 && e.nDQSCK >= 0
    && e.nCL >= 0 && e.nRCD >= 0 && e.nRP >= 0 && e.nCWL >= 0
    && e.nRAS >= 0 && e.nRC >= 0
    && e.nRTP >= 0 && e.nRTW >= 0 && e.nWTR >= 0 && e.nWR >= 0
    && e.nRRD >= 0 && e.nTAW >= 0
    && e.nRFC >= 0 && e.nREFI >= 0
    && e.nCKE >= 0 && e.nXP >= 0
    && e.nCKESR >= 0 && e.nXSR >= 0
  }

  /** Every timing parameter of a is at most the same parameter of b. */
  predicate NoMoreCyclesThan(a: SpeedEntry, b: SpeedEntry) {
    && a.nBL <= b.nBL && a.nCCD <= b.nCCD && a.nDQSCK <= b.nDQSCK
    && a.nCL <= b.nCL && a.nRCD <= b.nRCD && a.nRP <= b.nRP && a.nCWL <= b.nCWL
    && a.nRAS <= b.nRAS && a.nRC <= b.nRC
    && a.nRTP <= b.nRTP && a.nRTW <= b.nRTW && a.nWTR <= b.nWTR && a.nWR <= b.nWR
    && a.nRRD <= b.nRRD && a.nTAW <= b.nTAW
    && a.nRFC <= b.nRFC && a.nREFI <= b.nREFI
    && a.nCKE <= b.nCKE && a.nXP <= b.nXP
    && a.nCKESR <= b.nCKESR && a.nXSR <= b.nXSR
  }

  /** The integer columns of `speed_table`. */
  const SpeedTable: seq<SpeedEntry> := [
    SpeedEntry(200, 16, 16, 1, 12, 16, 16, 1, 36, 48, 4, 8, 3, 12, 8, 10, 0, 0, 12, 8, 12, 0),
    SpeedEntry(266, 16, 16, 1, 12, 20, 20, 1, 48, 54, 4, 8, 4, 16, 12, 14, 0, 0, 12, 12, 16, 0)
  ]

  /** The table row of speed grade s: its rate is the grade's number, and
      all its cycle counts are non-negative. */
  function SpeedRow(s: Speed): (e: SpeedEntry)
    ensures NonNegative(e)
    ensures e.rate > 0
    ensures e.rate == (if s == Speed200 then 200 else 266)
  {
    SpeedTable[SpeedIndex(s)]
  }

  /** The faster grade has the higher rate and needs at least as many
      cycles for every timing parameter as the slower one. */
  lemma FasterGradeNeedsNoFewerCycles()
    ensures SpeedRow(Speed200).rate < SpeedRow(Speed266).rate
    ensures NoMoreCyclesThan(SpeedRow(Speed200), SpeedRow(Speed266))
  {
  }

  /** Within each grade the row timings nest: activate-to-access and
      precharge take the same time, a row stays active at least as long as
      activate-to-access, and a full row cycle covers the active period.
      Back-to-back column commands are one burst apart. */
  lemma RowTimingsNest(s: Speed)
    ensures SpeedRow(s).nRCD == SpeedRow(s).nRP
    ensures SpeedRow(s).nRCD <= SpeedRow(s).nRAS <= SpeedRow(s).nRC
    ensures SpeedRow(s).nCCD == SpeedRow(s).nBL
  {
  }

  /** The table leaves the refresh parameters and self-refresh exit at zero cycles. */
  lemma RefreshTimingsUnset(s: Speed)
    ensures SpeedRow(s).nRFC == 0 && SpeedRow(s).nREFI == 0 && SpeedRow(s).nXSR == 0
  {
  }

}
