/**
 * Water-quality compliance: the in-spec rule for a daily reading, the
 * compliance percentage over a set of readings, the dashboard's trailing-window
 * figures and the monthly report's water KPIs.
 */
module Compliance {
  import opened Wrappers
  import opened Records

  /** In spec: TDS at most 50 ppm and pH within [6.5, 8.5], both bounds inclusive. */
  predicate InSpec(r: Reading)
  {
    r.tds <= 50.0 && 6.5 <= r.ph <= 8.5
  }

  /** The monthly PDF's out-of-spec test, as that report writes it. */
  predicate OutOfSpec(r: Reading)
  {
    r.tds > 50.0 || !(6.5 <= r.ph <= 8.5)
  }

  /** cond_ok.sum(): the number of in-spec readings. */
  function CountInSpec(rs: seq<Reading>): (n: nat)
    ensures n <= |rs|
  {
    if |rs| == 0 then 0
    else CountInSpec(rs[..|rs| - 1]) + (if InSpec(rs[|rs| - 1]) then 1 else 0)
  }

  /** The number of readings the monthly PDF counts as out of spec. */
  function CountOutOfSpec(rs: seq<Reading>): (n: nat)
    ensures n <= |rs|
  {
    if |rs| == 0 then 0
    else CountOutOfSpec(rs[..|rs| - 1]) + (if OutOfSpec(rs[|rs| - 1]) then 1 else 0)
  }

  /** (compliance %, good days, bad days). */
  datatype ComplianceResult = ComplianceResult(percent: real, good: nat, bad: nat)

  /** compute_compliance: the share of in-spec readings, in percent. */
  function ComputeCompliance(rs: seq<Reading>): (c: ComplianceResult)
    ensures |rs| == 0 ==> c == ComplianceResult(0.0, 0, 0)
    ensures c.good == CountInSpec(rs)
    ensures c.good + c.bad == |rs|
    ensures 0.0 <= c.percent <= 100.0
    ensures |rs| > 0 ==> c.percent * (|rs| as real) == 100.0 * (c.good as real)
  {
    if |rs| == 0 then ComplianceResult(0.0, 0, 0)
    else
      var total := |rs|;
      var good := CountInSpec(rs);
      var bad := total - good;
      var share := good as real / total as real;
      assert 0.0 <= share <= 1.0 by {
        assert share * (total as real) == good as real;
      }
      var percent := if total != 0 then share * 100.0 else 0.0;
      ComplianceResult(percent, good, bad)
  }

  /** Every reading is in spec exactly when the in-spec count is the whole set. */
  lemma {:induction false} AllInSpec(rs: seq<Reading>)
    ensures CountInSpec(rs) == |rs| <==> forall i :: 0 <= i < |rs| ==> InSpec(rs[i])
  {
    if |rs| > 0 {
      var p := rs[..|rs| - 1];
      AllInSpec(p);
      assert forall i :: 0 <= i < |p| ==> p[i] == rs[i];
    }
  }

  /** No reading is in spec exactly when the in-spec count is zero. */
  lemma {:induction false} NoneInSpec(rs: seq<Reading>)
    ensures CountInSpec(rs) == 0 <==> forall i :: 0 <= i < |rs| ==> !InSpec(rs[i])
  {
    if |rs| > 0 {
      var p := rs[..|rs| - 1];
      NoneInSpec(p);
      assert forall i :: 0 <= i < |p| ==> p[i] == rs[i];
    }
  }

  /** The in-spec count of two consecutive stretches of readings adds up. */
  lemma {:induction false} CountInSpecAppend(a: seq<Reading>, b: seq<Reading>)
    ensures CountInSpec(a + b) == CountInSpec(a) + CountInSpec(b)
  {
    if |b| > 0 {
      var b' := b[..|b| - 1];
      CountInSpecAppend(a, b');
      assert (a + b)[..|a + b| - 1] == a + b';
      assert (a + b)[|a + b| - 1] == b[|b| - 1];
    } else {
      assert a + b == a;
    }
  }

  /** Full compliance means that every reading is in spec, and zero that none is. */
  lemma ComplianceExtremes(rs: seq<Reading>)
    requires |rs| > 0
    ensures ComputeCompliance(rs).percent == 100.0 <==> forall i :: 0 <= i < |rs| ==> InSpec(rs[i])
    ensures ComputeCompliance(rs).percent == 0.0 <==> forall i :: 0 <= i < |rs| ==> !InSpec(rs[i])
  {
    AllInSpec(rs);
    NoneInSpec(rs);
    var c := ComputeCompliance(rs);
    var n := |rs| as real;
    assert n > 0.0;
    assert c.percent * n == 100.0 * (c.good as real);
    if c.percent == 100.0 {
      assert 100.0 * (c.good as real) == 100.0 * n;
      assert c.good == |rs|;
    }
    if c.good == |rs| {
      assert (c.percent - 100.0) * n == 0.0;
      assert c.percent == 100.0;
    }
    if c.percent == 0.0 {
      assert (c.good as real) == 0.0;
    }
    if c.good == 0 {
      assert c.percent * n == 0.0;
      assert c.percent == 0.0;
    }
  }

  /** The PDF's out-of-spec count is the complement of the in-spec count. */
  lemma {:induction false} OutOfSpecCountIsBadDays(rs: seq<Reading>)
    ensures CountOutOfSpec(rs) == ComputeCompliance(rs).bad
    ensures CountOutOfSpec(rs) + CountInSpec(rs) == |rs|
  {
    if |rs| > 0 {
      OutOfSpecCountIsBadDays(rs[..|rs| - 1]);
    }
  }

  /** The dashboard's compliance KPIs over the trailing window. */
  datatype DashboardKpis = DashboardKpis(compliance: real, inSpecDays: nat, outOfSpecDays: nat, production: real)

  /**
   * The dashboard's inline figures: None when there are no readings at all
   * (the page stops early), zeros when the window is empty.
   */
  function DashboardFigures(rs: seq<Reading>, cutoff: Date): (k: Option<DashboardKpis>)
    ensures k.None? <==> |rs| == 0
    ensures k.Some? && |ReadingsSince(rs, cutoff)| == 0 ==> k.value == DashboardKpis(0.0, 0, 0, 0.0)
  {
    if |rs| == 0 then None
    else
      var window := ReadingsSince(rs, cutoff);
      if |window| > 0 then
        var good := CountInSpec(window);
        Some(DashboardKpis((good as real / |window| as real) * 100.0, good, |window| - good, TotalProduction(window)))
      else
        Some(DashboardKpis(0.0, 0, 0, 0.0))
  }

  /** The dashboard repeats compute_compliance's rule and agrees with it on the window. */
  lemma DashboardAgreesWithCompliance(rs: seq<Reading>, cutoff: Date)
    requires |rs| > 0
    ensures DashboardFigures(rs, cutoff).Some?
    ensures var k := DashboardFigures(rs, cutoff).value;
            var c := ComputeCompliance(ReadingsSince(rs, cutoff));
            k.compliance == c.percent && k.inSpecDays == c.good && k.outOfSpecDays == c.bad
    ensures DashboardFigures(rs, cutoff).value.production == TotalProduction(ReadingsSince(rs, cutoff))
  {
  }

  /** Every dashboard window reading is dated on or after the cutoff, and none is missed. */
  lemma WindowIsTrailing(rs: seq<Reading>, cutoff: Date, r: Reading)
    ensures r in ReadingsSince(rs, cutoff) <==> r in rs && OnOrAfter(r.date, cutoff)
  {
  }

  /** The water KPIs of the monthly PDF. */
  datatype WaterKpis = WaterKpis(averageTds: real, averagePh: real, outOfSpecDays: nat, production: real)

  function TdsColumn(rs: seq<Reading>): (r: seq<real>)
    ensures |r| == |rs| && forall i :: 0 <= i < |rs| ==> r[i] == rs[i].tds
  {
    seq(|rs|, i requires 0 <= i < |rs| => rs[i].tds)
  }

  function PhColumn(rs: seq<Reading>): (r: seq<real>)
    ensures |r| == |rs| && forall i :: 0 <= i < |rs| ==> r[i] == rs[i].ph
  {
    seq(|rs|, i requires 0 <= i < |rs| => rs[i].ph)
  }

  /** Averages, out-of-spec days and production of one month's readings. */
  function MonthWaterKpis(month: seq<Reading>): (k: WaterKpis)
    ensures |month| == 0 ==> k == WaterKpis(0.0, 0.0, 0, 0.0)
    ensures k.outOfSpecDays == ComputeCompliance(month).bad
  {
    OutOfSpecCountIsBadDays(month);
    if |month| > 0 then
      WaterKpis(Mean(TdsColumn(month)), Mean(PhColumn(month)), CountOutOfSpec(month), TotalProduction(month))
    else
      WaterKpis(0.0, 0.0, 0, 0.0)
  }

  /** A month whose readings are all in spec reports averages inside the spec, too. */
  lemma InSpecMonthAverages(month: seq<Reading>)
    requires |month| > 0
    requires forall i :: 0 <= i < |month| ==> InSpec(month[i]) && month[i].tds >= 0.0
    ensures 0.0 <= MonthWaterKpis(month).averageTds <= 50.0
    ensures 6.5 <= MonthWaterKpis(month).averagePh <= 8.5
    ensures MonthWaterKpis(month).outOfSpecDays == 0
  {
    MeanWithin(TdsColumn(month), 0.0, 50.0);
    MeanWithin(PhColumn(month), 6.5, 8.5);
    AllInSpec(month);
  }
}
