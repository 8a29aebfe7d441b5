/**
 * The dashboard's chemical stock alerts: a hard-coded rule for chlorine and
 * hypochlorite, a minimum-stock table with a 1.3 times warning band for every
 * other chemical, and the stock progress bar.
 */
module StockAlerts {

  /** Minimum stock levels (kg) of the named chemicals. */
  const MIN_STOCK: map<string, real> := map[
    "Sodium Hypochlorite (Chlorine)" := 50.0,
    "Hydrochloric Acid (HCL)" := 30.0,
    "Antiscalant PC-391" := 25.0]

  /** The minimum used for a chemical that the table does not name. */
  const DEFAULT_MIN_STOCK: real := 30.0

  /** The chlorine rule's thresholds (kg). */
  const CHLORINE_URGENT_BELOW: real := 50.0
  const CHLORINE_WARNING_BELOW: real := 80.0

  /** The generic rule warns below this multiple of the minimum. */
  const WARNING_FACTOR: real := 1.3

  function MinStockFor(name: string): (m: real)
    ensures m >= 25.0
    ensures name in MIN_STOCK ==> m == MIN_STOCK[name]
    ensures name !in MIN_STOCK ==> m == DEFAULT_MIN_STOCK
  {
    if name in MIN_STOCK then MIN_STOCK[name] else DEFAULT_MIN_STOCK
  }

  /** t is a prefix of s. */
  predicate IsPrefix(t: string, s: string)
  {
    |t| <= |s| && s[..|t|] == t
  }

  /** Substring test (Python's `t in s`). */
  predicate Contains(s: string, t: string)
    decreases |s|
  {
    IsPrefix(t, s) || (|s| > 0 && Contains(s[1..], t))
  }

  /** t occurs in s starting at position i. */
  predicate OccursAt(s: string, t: string, i: int)
  {
    0 <= i && i + |t| <= |s| && s[i..i + |t|] == t
  }

  /** A slice of s's tail is the slice of s one position further on. */
  lemma SliceOfTail(s: string, i: int, n: int)
    requires 1 <= i && 0 <= n && i + n <= |s|
    ensures s[1..][i - 1..i - 1 + n] == s[i..i + n]
  {
    var a, b := s[1..][i - 1..i - 1 + n], s[i..i + n];
    forall j | 0 <= j < n
      ensures a[j] == b[j]
    {
      assert s[1..][i - 1 + j] == s[i + j];
    }
  }

  /** An occurrence after the first position is an occurrence in the tail. */
  lemma OccursInTail(s: string, t: string, i: int)
    requires 1 <= i
    ensures OccursAt(s, t, i) ==> OccursAt(s[1..], t, i - 1)
  {
    if OccursAt(s, t, i) {
      SliceOfTail(s, i, |t|);
    }
  }

  /** Contains finds t exactly when t occurs at some position of s. */
  lemma {:induction false} ContainsIff(s: string, t: string)
    ensures Contains(s, t) <==> exists i :: OccursAt(s, t, i)
  {
    if |s| == 0 {
      if |t| == 0 {
        assert OccursAt(s, t, 0);
      }
    } else {
      ContainsIff(s[1..], t);
      if Contains(s, t) {
        if IsPrefix(t, s) {
          assert OccursAt(s, t, 0);
        } else {
          var j :| OccursAt(s[1..], t, j);
          SliceOfTail(s, j + 1, |t|);
          assert OccursAt(s, t, j + 1);
        }
      } else {
        forall i | 0 <= i
          ensures !OccursAt(s, t, i)
        {
          if i > 0 {
            OccursInTail(s, t, i);
          }
        }
      }
    }
  }

  /** The names that get the chlorine rule instead of the generic one. */
  predicate UsesChlorineRule(name: string)
  {
    Contains(name, "Hypochlorite") || Contains(name, "Chlorine")
  }

  /** The alert shown under a chemical's progress bar. */
  datatype Alert = BelowMinimum | NearMinimum | NoAlert

  /** The dashboard's alert for a chemical holding qty kg. */
  function Classify(name: string, qty: real): (a: Alert)
    ensures UsesChlorineRule(name) ==>
              && (a == BelowMinimum <==> qty < CHLORINE_URGENT_BELOW)
              && (a == NearMinimum <==> CHLORINE_URGENT_BELOW <= qty < CHLORINE_WARNING_BELOW)
    ensures !UsesChlorineRule(name) ==>
              && (a == BelowMinimum <==> qty < MinStockFor(name))
              && (a == NearMinimum <==> MinStockFor(name) <= qty < WARNING_FACTOR * MinStockFor(name))
  {
    if UsesChlorineRule(name) then
      if qty < CHLORINE_URGENT_BELOW then BelowMinimum
      else if qty < CHLORINE_WARNING_BELOW then NearMinimum
      else NoAlert
    else
      var minStock := MinStockFor(name);
      if qty < minStock then BelowMinimum
      else if qty < minStock * WARNING_FACTOR then NearMinimum
      else NoAlert
  }

  /** The same rules as data: an alert threshold and a warning threshold per chemical. */
  datatype Thresholds = Thresholds(alertBelow: real, warnBelow: real)

  function RuleFor(name: string): (t: Thresholds)
    ensures t.alertBelow < t.warnBelow
  {
    if UsesChlorineRule(name) then Thresholds(CHLORINE_URGENT_BELOW, CHLORINE_WARNING_BELOW)
    else Thresholds(MinStockFor(name), WARNING_FACTOR * MinStockFor(name))
  }

  function ClassifyBy(t: Thresholds, qty: real): Alert
  {
    if qty < t.alertBelow then BelowMinimum
    else if qty < t.warnBelow then NearMinimum
    else NoAlert
  }

  /** The special-cased code and the rule table give the same alert for every chemical. */
  lemma ClassifyIsTableDriven(name: string, qty: real)
    ensures Classify(name, qty) == ClassifyBy(RuleFor(name), qty)
  {
  }

  function Severity(a: Alert): nat
  {
    match a
    case NoAlert => 0
    case NearMinimum => 1
    case BelowMinimum => 2
  }

  /** Less stock never gives a milder alert. */
  lemma AlertMonotone(name: string, qty1: real, qty2: real)
    requires qty1 <= qty2
    ensures Severity(Classify(name, qty2)) <= Severity(Classify(name, qty1))
  {
  }

  /**
   * The chlorine rule skips the table: a chlorine chemical that the table lists
   * still warns between 1.3 times its table minimum and 80 kg, where the generic
   * rule would raise no alert (for the base hypochlorite, 65 to 80 kg).
   */
  lemma ChlorineRuleOverridesTable(name: string, qty: real)
    requires UsesChlorineRule(name) && name in MIN_STOCK
    requires CHLORINE_URGENT_BELOW <= qty < CHLORINE_WARNING_BELOW
    requires WARNING_FACTOR * MIN_STOCK[name] <= qty
    ensures Classify(name, qty) == NearMinimum
    ensures ClassifyBy(Thresholds(MIN_STOCK[name], WARNING_FACTOR * MIN_STOCK[name]), qty) == NoAlert
  {
  }

  /** The base hypochlorite's name contains "Chlorine", so it gets the chlorine rule. */
  lemma BaseHypochloriteUsesChlorineRule()
    ensures UsesChlorineRule("Sodium Hypochlorite (Chlorine)")
    ensures "Sodium Hypochlorite (Chlorine)" in MIN_STOCK
  {
    var s := "Sodium Hypochlorite (Chlorine)";
    assert s[21..29] == "Chlorine";
    assert OccursAt(s, "Chlorine", 21);
    ContainsIff(s, "Chlorine");
  }

  /**
   * With 65 to 80 kg on hand, the base hypochlorite gets a warning, although its
   * table minimum of 50 kg alone would raise no alert at that level.
   */
  lemma BaseHypochloriteWarnsAboveTableBand(qty: real)
    requires 65.0 <= qty < 80.0
    ensures Classify("Sodium Hypochlorite (Chlorine)", qty) == NearMinimum
    ensures ClassifyBy(Thresholds(MinStockFor("Sodium Hypochlorite (Chlorine)"),
                                  WARNING_FACTOR * MinStockFor("Sodium Hypochlorite (Chlorine)")), qty) == NoAlert
  {
    BaseHypochloriteUsesChlorineRule();
    ChlorineRuleOverridesTable("Sodium Hypochlorite (Chlorine)", qty);
  }

  /** The progress bar's fill: min(qty / max(2 * min, 1), 1). */
  function Progress(name: string, qty: real): (p: real)
    ensures p <= 1.0
    ensures qty >= 0.0 ==> 0.0 <= p
    ensures qty >= 2.0 * MinStockFor(name) ==> p == 1.0
    ensures qty <= 2.0 * MinStockFor(name) ==> p * (2.0 * MinStockFor(name)) == qty
  {
    var scale := if MinStockFor(name) * 2.0 > 1.0 then MinStockFor(name) * 2.0 else 1.0;
    var fill := qty / scale;
    if fill < 1.0 then fill else 1.0
  }
}
