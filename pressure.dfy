/**
 * Cartridge-filter differential pressure (DP): its derivation from the
 * pressures before and after the filter, the three status bands applied by the
 * cartridge page, the dashboard and the gauge, and the gauge's display clamp.
 */
module DifferentialPressure {
  import opened Wrappers
  import opened Records

  /** An after-pressure above the before-pressure is lowered to it. */
  function AdjustedAfter(before: real, after: real): (a: real)
    ensures a <= before
    ensures after <= before ==> a == after
    ensures after > before ==> a == before
  {
    if after > before then before else after
  }

  /** The DP the cartridge page shows and saves. */
  function DerivedDp(before: real, after: real): (dp: real)
    ensures dp >= 0.0
    ensures after <= before ==> dp == before - after
    ensures after >= before ==> dp == 0.0
  {
    var d := before - AdjustedAfter(before, after);
    if d < 0.0 then 0.0 else d
  }

  /** With the page's input bounds of 0 to 10 bar, the derived DP stays within 0 to 10 bar. */
  lemma DerivedDpWithinFormRange(before: real, after: real)
    requires 0.0 <= before <= 10.0 && 0.0 <= after <= 10.0
    ensures 0.0 <= DerivedDp(before, after) <= before
    ensures GaugeValue(DerivedDp(before, after)) == DerivedDp(before, after)
  {
  }

  /** The three DP bands; each carries the page's recommended action. */
  datatype Status = Normal | Warning | High

  datatype Action = CartridgeOk | MonitorFilter | ReplaceCartridge

  function ActionFor(s: Status): (a: Action)
    ensures a == ReplaceCartridge <==> s == High
    ensures s == Normal ==> a == CartridgeOk
    ensures s == Warning ==> a == MonitorFilter
  {
    match s
    case Normal => CartridgeOk
    case Warning => MonitorFilter
    case High => ReplaceCartridge
  }

  /** Banding: below 1 bar normal, 1 to 4 bar warning, above 4 bar high. */
  function StatusOf(dp: real): (s: Status)
    ensures s == Normal <==> dp < 1.0
    ensures s == Warning <==> 1.0 <= dp <= 4.0
    ensures s == High <==> dp > 4.0
  {
    if dp < 1.0 then Normal
    else if dp <= 4.0 then Warning
    else High
  }

  function Severity(s: Status): nat
  {
    match s
    case Normal => 0
    case Warning => 1
    case High => 2
  }

  /** A higher DP never gets a milder band. */
  lemma StatusMonotone(dp1: real, dp2: real)
    requires dp1 <= dp2
    ensures Severity(StatusOf(dp1)) <= Severity(StatusOf(dp2))
  {
  }

  /** The gauge's needle position: DP clamped to [0, 10] bar. */
  function GaugeValue(dp: real): (g: real)
    ensures 0.0 <= g <= 10.0
    ensures 0.0 <= dp <= 10.0 ==> g == dp
    ensures dp < 0.0 ==> g == 0.0
    ensures dp > 10.0 ==> g == 10.0
  {
    var upper := if dp < 10.0 then dp else 10.0;
    if 0.0 > upper then 0.0 else upper
  }

  /** The clamp is for display only: the gauge's needle colour is the band of the raw DP. */
  lemma GaugeKeepsStatus(dp: real)
    ensures StatusOf(GaugeValue(dp)) == StatusOf(dp)
  {
  }

  /** The record the cartridge page saves; the cost is kept only for a replacement. */
  function CartridgeEntry(date: Date, before: real, after: real, remarks: string, isChange: bool, enteredCost: real)
    : (r: CartridgeRecord)
    ensures r.dp >= 0.0 && r.dp == DerivedDp(before, after)
    ensures r.isChange == isChange && r.date == date
    ensures r.remarks == remarks
    ensures isChange ==> r.changeCost == enteredCost
    ensures !isChange ==> r.changeCost == 0.0
  {
    CartridgeRecord(date, DerivedDp(before, after), remarks, isChange, if isChange then enteredCost else 0.0)
  }

  /**
   * The dashboard's band for the latest cartridge record. The page returns
   * before its DP section when there are no readings, so there is no band then,
   * nor without cartridge records. The history is given in date order, as the
   * query sorts it; the order of records on the same date is whatever the
   * caller passes.
   */
  function LatestStatus(readings: seq<Reading>, history: seq<CartridgeRecord>): (s: Option<Status>)
    ensures s.None? <==> |readings| == 0 || |history| == 0
    ensures s.Some? ==> s.value == StatusOf(history[|history| - 1].dp)
  {
    if |readings| == 0 || |history| == 0 then None else Some(StatusOf(history[|history| - 1].dp))
  }
}
