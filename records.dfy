/**
 * Rows of the RO unit's store as the calculations see them, and the small
 * sequence utilities (filtering a row set, summing and averaging a column)
 * that the pandas code applies to them.
 */
module Records {

  /** A calendar date, as held in a DATE column. */
  datatype Date = Date(year: int, month: int, day: int)

  /** The "%Y-%m" key by which the monthly pages group rows. */
  datatype MonthKey = MonthKey(year: int, month: int)

  function MonthOf(d: Date): MonthKey
  {
    MonthKey(d.year, d.month)
  }

  /** Chronological order on dates: d is the cutoff day or later. */
  predicate OnOrAfter(d: Date, cutoff: Date)
  {
    || d.year > cutoff.year
    || (d.year == cutoff.year && d.month > cutoff.month)
    || (d.year == cutoff.year && d.month == cutoff.month && d.day >= cutoff.day)
  }

  /** One row of the readings table. */
  datatype Reading = Reading(
    date: Date,
    tds: real,
    ph: real,
    conductivity: real,
    flow: real,
    production: real,
    maintenance: string,
    notes: string)

  /** One row of the chemical_movements table; kind is the movement_type text. */
  datatype Movement = Movement(date: Date, name: string, kind: string, qty: real, remarks: string)

  const IN_KIND: string := "IN"
  const OUT_KIND: string := "OUT"

  /** One row of the cartridge table. */
  datatype CartridgeRecord = CartridgeRecord(
    date: Date,
    dp: real,
    remarks: string,
    isChange: bool,
    changeCost: real)

  /**
   * A boolean mask applied to a row set: the rows kept, in their order, each
   * matching row as often as it occurs (rows need not be distinct; see
   * FilterKeepsMultiplicity).
   */
  function Filter<T(==,!new)>(xs: seq<T>, keep: T -> bool): (r: seq<T>)
    ensures |r| <= |xs|
    ensures forall x :: x in r <==> x in xs && keep(x)
  {
    if |xs| == 0 then []
    else
      assert xs == [xs[0]] + xs[1..];
      (if keep(xs[0]) then [xs[0]] else []) + Filter(xs[1..], keep)
  }

  /** Masking a row set with one more row at its end masks that row on its own. */
  lemma {:induction false} FilterAppend<T(!new)>(xs: seq<T>, x: T, keep: T -> bool)
    ensures Filter(xs + [x], keep) == Filter(xs, keep) + (if keep(x) then [x] else [])
  {
    if |xs| > 0 {
      assert (xs + [x])[1..] == xs[1..] + [x];
      FilterAppend(xs[1..], x, keep);
    } else {
      assert xs + [x] == [x];
    }
  }

  /** The mask keeps every matching row as many times as it occurs, and no other row. */
  lemma {:induction false} FilterKeepsMultiplicity<T(!new)>(xs: seq<T>, keep: T -> bool, x: T)
    ensures multiset(Filter(xs, keep))[x] == if keep(x) then multiset(xs)[x] else 0
  {
    if |xs| > 0 {
      FilterKeepsMultiplicity(xs[1..], keep, x);
      assert xs == [xs[0]] + xs[1..];
      var head := if keep(xs[0]) then [xs[0]] else [];
      assert Filter(xs, keep) == head + Filter(xs[1..], keep);
      assert multiset(Filter(xs, keep)) == multiset(head) + multiset(Filter(xs[1..], keep));
      assert multiset(xs) == multiset([xs[0]]) + multiset(xs[1..]);
    }
  }

  /** The readings dated in month m (df["month"] == month). */
  function ReadingsInMonth(rs: seq<Reading>, m: MonthKey): seq<Reading>
  {
    Filter(rs, (r: Reading) => MonthOf(r.date) == m)
  }

  /** The readings dated on or after the cutoff (the dashboard's trailing window). */
  function ReadingsSince(rs: seq<Reading>, cutoff: Date): seq<Reading>
  {
    Filter(rs, (r: Reading) => OnOrAfter(r.date, cutoff))
  }

  /** The OUT movements dated in month m. */
  function OutMovementsInMonth(log: seq<Movement>, m: MonthKey): seq<Movement>
  {
    Filter(log, (x: Movement) => MonthOf(x.date) == m && x.kind == OUT_KIND)
  }

  /** The cartridge records dated in month m. */
  function CartridgeInMonth(cs: seq<CartridgeRecord>, m: MonthKey): seq<CartridgeRecord>
  {
    Filter(cs, (c: CartridgeRecord) => MonthOf(c.date) == m)
  }

  /** The sum of a numeric column. */
  function Sum(xs: seq<real>): real
  {
    if |xs| == 0 then 0.0 else Sum(xs[..|xs| - 1]) + xs[|xs| - 1]
  }

  /** The mean of a numeric column, 0 for an empty one (the report's fallback). */
  function Mean(xs: seq<real>): real
  {
    if |xs| == 0 then 0.0 else Sum(xs) / (|xs| as real)
  }

  lemma {:induction false} SumBounds(xs: seq<real>, lo: real, hi: real)
    requires forall i :: 0 <= i < |xs| ==> lo <= xs[i] <= hi
    ensures (|xs| as real) * lo <= Sum(xs) <= (|xs| as real) * hi
  {
    if |xs| > 0 {
      SumBounds(xs[..|xs| - 1], lo, hi);
    }
  }

  /** A mean lies between any bounds of the column it averages. */
  lemma MeanWithin(xs: seq<real>, lo: real, hi: real)
    requires |xs| > 0
    requires forall i :: 0 <= i < |xs| ==> lo <= xs[i] <= hi
    ensures lo <= Mean(xs) <= hi
  {
    SumBounds(xs, lo, hi);
    var n := |xs| as real;
    assert n * lo <= Sum(xs) <= n * hi;
    assert Mean(xs) == Sum(xs) / n;
    assert Mean(xs) * n == Sum(xs);
  }

  lemma {:induction false} SumNonNegative(xs: seq<real>)
    requires forall i :: 0 <= i < |xs| ==> xs[i] >= 0.0
    ensures Sum(xs) >= 0.0
  {
    if |xs| > 0 {
      SumNonNegative(xs[..|xs| - 1]);
    }
  }

  function Productions(rs: seq<Reading>): (r: seq<real>)
    ensures |r| == |rs| && forall i :: 0 <= i < |rs| ==> r[i] == rs[i].production
  {
    seq(|rs|, i requires 0 <= i < |rs| => rs[i].production)
  }

  /** df["production"].sum(), 0 for no rows. */
  function TotalProduction(rs: seq<Reading>): real
  {
    Sum(Productions(rs))
  }
}
