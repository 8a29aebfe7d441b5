/**
 * The monthly consumable-cost aggregation of the monthly report page and its
 * PDF: chemical OUT quantities grouped by chemical and priced at the unit cost,
 * cartridge replacement costs, their total, and the rates per cubic metre of
 * production, every one of them 0 when there is no production.
 */
module ConsumableCosts {
  import opened Records
  import ChemicalLedger

  /** cost_map: each chemicals row's unit cost, keyed by name. */
  function CostMap(t: ChemicalLedger.Table): (m: map<string, real>)
    ensures m.Keys == t.Keys
    ensures forall n :: n in t ==> m[n] == t[n].unitCost
  {
    map n | n in t :: t[n].unitCost
  }

  /** cost_map.get(name, 0.0). */
  function UnitCostOf(costs: map<string, real>, name: string): real
  {
    if name in costs then costs[name] else 0.0
  }

  /** amount / production, or 0 when production is not positive. */
  function Rate(amount: real, production: real): (r: real)
    ensures production <= 0.0 ==> r == 0.0
    ensures production > 0.0 ==> r * production == amount
  {
    if production > 0.0 then amount / production else 0.0
  }

  /** Some movement of outs is for the chemical called name. */
  predicate HasName(outs: seq<Movement>, name: string)
  {
    exists i :: 0 <= i < |outs| && outs[i].name == name
  }

  /** No name occurs twice. */
  predicate Distinct(names: seq<string>)
  {
    forall i, j :: 0 <= i < j < |names| ==> names[i] != names[j]
  }

  lemma HasNameAppend(p: seq<Movement>, m: Movement, name: string)
    ensures HasName(p + [m], name) <==> HasName(p, name) || m.name == name
  {
    var s := p + [m];
    if HasName(p, name) {
      var i :| 0 <= i < |p| && p[i].name == name;
      assert s[i] == p[i];
    }
    if HasName(s, name) && m.name != name {
      var i :| 0 <= i < |s| && s[i].name == name;
      assert i < |p| && s[i] == p[i];
    }
    assert s[|p|] == m;
  }

  /** The groupby sum: the total quantity of the movements for one chemical. */
  function QtyOf(outs: seq<Movement>, name: string): real
  {
    if |outs| == 0 then 0.0
    else
      var m := outs[|outs| - 1];
      QtyOf(outs[..|outs| - 1], name) + (if m.name == name then m.qty else 0.0)
  }

  /** A chemical without movements has consumed nothing. */
  lemma {:induction false} QtyOfAbsent(outs: seq<Movement>, name: string)
    requires !HasName(outs, name)
    ensures QtyOf(outs, name) == 0.0
  {
    if |outs| > 0 {
      var p := outs[..|outs| - 1];
      var m := outs[|outs| - 1];
      assert outs == p + [m];
      HasNameAppend(p, m, name);
      QtyOfAbsent(p, name);
    }
  }

  /** The groupby keys: each chemical that has a movement, once, in order of first movement. */
  function Names(outs: seq<Movement>): (names: seq<string>)
    ensures forall n :: n in names <==> HasName(outs, n)
    ensures Distinct(names)
  {
    if |outs| == 0 then []
    else
      var p := outs[..|outs| - 1];
      var m := outs[|outs| - 1];
      assert outs == p + [m];
      var earlier := Names(p);
      assert forall n :: HasName(outs, n) <==> HasName(p, n) || m.name == n by {
        forall n ensures HasName(outs, n) <==> HasName(p, n) || m.name == n {
          HasNameAppend(p, m, n);
        }
      }
      if m.name in earlier then earlier else earlier + [m.name]
  }

  /** One movement priced at its chemical's unit cost. */
  function MovementPrice(m: Movement, costs: map<string, real>): real
  {
    m.qty * UnitCostOf(costs, m.name)
  }

  /** The reference total: every movement priced at its chemical's unit cost. */
  function MovementCost(outs: seq<Movement>, costs: map<string, real>): real
  {
    if |outs| == 0 then 0.0
    else MovementCost(outs[..|outs| - 1], costs) + MovementPrice(outs[|outs| - 1], costs)
  }

  /** One chemical's grouped quantity priced at its unit cost. */
  function GroupCost(outs: seq<Movement>, costs: map<string, real>, name: string): real
  {
    QtyOf(outs, name) * UnitCostOf(costs, name)
  }

  /** The total over the listed chemicals of their group costs. */
  function NamesCost(outs: seq<Movement>, costs: map<string, real>, names: seq<string>): real
  {
    if |names| == 0 then 0.0
    else NamesCost(outs, costs, names[..|names| - 1]) + GroupCost(outs, costs, names[|names| - 1])
  }

  /** Dropping the last name of a duplicate-free list leaves one that is still duplicate-free and lacks that name. */
  lemma DistinctInit(names: seq<string>)
    requires |names| > 0 && Distinct(names)
    ensures Distinct(names[..|names| - 1])
    ensures names[|names| - 1] !in names[..|names| - 1]
  {
    var ns := names[..|names| - 1];
    forall i | 0 <= i < |ns| ensures ns[i] != names[|names| - 1] {
      assert ns[i] == names[i];
    }
  }

  /** One more movement adds its quantity to its own chemical's group only. */
  lemma QtyOfAfterMovement(p: seq<Movement>, m: Movement, name: string)
    ensures QtyOf(p + [m], name) == QtyOf(p, name) + (if m.name == name then m.qty else 0.0)
  {
    var s := p + [m];
    assert s[..|s| - 1] == p;
  }

  /** One more movement adds its price to its own chemical's group cost only. */
  lemma GroupCostAfterMovement(p: seq<Movement>, m: Movement, costs: map<string, real>, name: string)
    ensures GroupCost(p + [m], costs, name) == GroupCost(p, costs, name) + (if m.name == name then MovementPrice(m, costs) else 0.0)
  {
    QtyOfAfterMovement(p, m, name);
    var c := UnitCostOf(costs, name);
    if m.name == name {
      assert (QtyOf(p, name) + m.qty) * c == QtyOf(p, name) * c + m.qty * c;
    }
  }

  /** One more movement adds its cost to exactly the group of its own chemical. */
  lemma {:induction false} NamesCostAfterMovement(p: seq<Movement>, m: Movement, costs: map<string, real>, names: seq<string>)
    requires Distinct(names)
    ensures NamesCost(p + [m], costs, names)
            == NamesCost(p, costs, names) + (if m.name in names then MovementPrice(m, costs) else 0.0)
  {
    if |names| > 0 {
      var ns := names[..|names| - 1];
      var k := names[|names| - 1];
      DistinctInit(names);
      assert m.name in names <==> m.name in ns || m.name == k by {
        assert names == ns + [k];
      }
      NamesCostAfterMovement(p, m, costs, ns);
      GroupCostAfterMovement(p, m, costs, k);
    }
  }

  /** Grouping by chemical does not change the total: the grouped cost is the per-movement cost. */
  lemma {:induction false} GroupedCostIsMovementCost(outs: seq<Movement>, costs: map<string, real>)
    ensures NamesCost(outs, costs, Names(outs)) == MovementCost(outs, costs)
  {
    if |outs| > 0 {
      var p := outs[..|outs| - 1];
      var m := outs[|outs| - 1];
      assert outs == p + [m];
      GroupedCostIsMovementCost(p, costs);
      var earlier := Names(p);
      NamesCostAfterMovement(p, m, costs, earlier);
      if m.name !in earlier {
        assert !HasName(p, m.name);
        QtyOfAbsent(p, m.name);
        var all := earlier + [m.name];
        assert all[..|all| - 1] == earlier;
        assert QtyOf(outs, m.name) == QtyOf(p, m.name) + m.qty;
      }
    }
  }

  /** One row of the chemical usage and cost summary. */
  datatype CostRow = CostRow(
    chemical: string,
    qty: real,
    unitCost: real,
    totalCost: real,
    ratePerM3: real,
    costRatePerM3: real)

  /** The summary row of one chemical: its grouped quantity, priced, and both per-m3 rates. */
  function RowFor(outs: seq<Movement>, costs: map<string, real>, production: real, name: string): (row: CostRow)
    ensures row.chemical == name
    ensures row.totalCost == GroupCost(outs, costs, name)
    ensures production <= 0.0 ==> row.ratePerM3 == 0.0 && row.costRatePerM3 == 0.0
  {
    var qty := QtyOf(outs, name);
    var unitCost := UnitCostOf(costs, name);
    var cost := qty * unitCost;
    CostRow(name, qty, unitCost, cost, Rate(qty, production), Rate(cost, production))
  }

  /** Extending the list of names by one adds that name's group cost. */
  lemma NamesCostStep(outs: seq<Movement>, costs: map<string, real>, names: seq<string>, i: int)
    requires 0 <= i < |names|
    ensures NamesCost(outs, costs, names[..i + 1]) == NamesCost(outs, costs, names[..i]) + GroupCost(outs, costs, names[i])
  {
    assert names[..i + 1][..i] == names[..i];
  }

  /** Rows built one per group key cover exactly the consumed chemicals, each once. */
  lemma RowsCoverNames(outs: seq<Movement>, costs: map<string, real>, production: real, rows: seq<CostRow>)
    requires |rows| == |Names(outs)|
    requires forall i :: 0 <= i < |rows| ==> rows[i] == RowFor(outs, costs, production, Names(outs)[i])
    ensures forall n :: HasName(outs, n) <==> exists i :: 0 <= i < |rows| && rows[i].chemical == n
    ensures forall i, j :: 0 <= i < j < |rows| ==> rows[i].chemical != rows[j].chemical
  {
    var usage := Names(outs);
    forall n | HasName(outs, n)
      ensures exists i :: 0 <= i < |rows| && rows[i].chemical == n
    {
      var k :| 0 <= k < |usage| && usage[k] == n;
      assert rows[k].chemical == n;
    }
  }

  /**
   * The loop over the grouped usage: one row per chemical with an OUT
   * movement, and the running total of chemical cost.
   */
  method SummarizeChemicals(outs: seq<Movement>, costs: map<string, real>, production: real)
    returns (rows: seq<CostRow>, totalChemCost: real)
    ensures |rows| == |Names(outs)|
    ensures forall i :: 0 <= i < |rows| ==> rows[i] == RowFor(outs, costs, production, Names(outs)[i])
    ensures forall n :: HasName(outs, n) <==> exists i :: 0 <= i < |rows| && rows[i].chemical == n
    ensures forall i, j :: 0 <= i < j < |rows| ==> rows[i].chemical != rows[j].chemical
    ensures totalChemCost == MovementCost(outs, costs)
  {
    var usage := Names(outs);
    rows := [];
    totalChemCost := 0.0;
    var i := 0;
    while i < |usage|
      invariant 0 <= i <= |usage|
      invariant |rows| == i
      invariant forall k :: 0 <= k < i ==> rows[k] == RowFor(outs, costs, production, usage[k])
      invariant totalChemCost == NamesCost(outs, costs, usage[..i])
    {
      var row := RowFor(outs, costs, production, usage[i]);
      totalChemCost := totalChemCost + row.totalCost;
      NamesCostStep(outs, costs, usage, i);
      rows := rows + [row];
      i := i + 1;
    }
    assert usage[..|usage|] == usage;
    GroupedCostIsMovementCost(outs, costs);
    RowsCoverNames(outs, costs, production, rows);
  }

  function ChangeCosts(cs: seq<CartridgeRecord>): (r: seq<real>)
    ensures |r| == |cs| && forall i :: 0 <= i < |cs| ==> r[i] == cs[i].changeCost
  {
    seq(|cs|, i requires 0 <= i < |cs| => cs[i].changeCost)
  }

  /** The month's cartridge replacement cost. */
  function CartridgeCost(cs: seq<CartridgeRecord>): real
  {
    Sum(ChangeCosts(cs))
  }

  /** The cartridge page accepts no negative replacement cost, so the month's cartridge cost is never negative. */
  lemma CartridgeCostNonNegative(cs: seq<CartridgeRecord>)
    requires forall i :: 0 <= i < |cs| ==> cs[i].changeCost >= 0.0
    ensures CartridgeCost(cs) >= 0.0
  {
    SumNonNegative(ChangeCosts(cs));
  }

  /** The month's number of cartridge replacements. */
  function ChangeCount(cs: seq<CartridgeRecord>): (n: nat)
    ensures n <= |cs|
  {
    if |cs| == 0 then 0
    else ChangeCount(cs[..|cs| - 1]) + (if cs[|cs| - 1].isChange then 1 else 0)
  }

  /** The replacement records among cs: df["is_change"] as a mask. */
  function Replacements(cs: seq<CartridgeRecord>): seq<CartridgeRecord>
  {
    Filter(cs, (c: CartridgeRecord) => c.isChange)
  }

  /** The change count is the number of records marked as replacements. */
  lemma {:induction false} ChangeCountIsReplacements(cs: seq<CartridgeRecord>)
    ensures ChangeCount(cs) == |Replacements(cs)|
  {
    if |cs| > 0 {
      var p := cs[..|cs| - 1];
      assert cs == p + [cs[|cs| - 1]];
      ChangeCountIsReplacements(p);
      FilterAppend(p, cs[|cs| - 1], (c: CartridgeRecord) => c.isChange);
    }
  }

  /** The monthly consumables cost summary. */
  datatype MonthlyCosts = MonthlyCosts(
    production: real,
    chemicalCost: real,
    cartridgeChanges: nat,
    cartridgeCost: real,
    totalCost: real,
    costPerM3: real)

  /** The chemical, cartridge and total consumable cost of one month, and its cost per m3. */
  method MonthlyReport(
    readings: seq<Reading>,
    log: seq<Movement>,
    chemicals: ChemicalLedger.Table,
    cartridges: seq<CartridgeRecord>,
    month: MonthKey)
    returns (rows: seq<CostRow>, summary: MonthlyCosts)
    ensures summary.production == TotalProduction(ReadingsInMonth(readings, month))
    ensures summary.chemicalCost == MovementCost(OutMovementsInMonth(log, month), CostMap(chemicals))
    ensures summary.cartridgeCost == CartridgeCost(CartridgeInMonth(cartridges, month))
    ensures summary.cartridgeChanges == ChangeCount(CartridgeInMonth(cartridges, month))
    ensures summary.cartridgeChanges == |Replacements(CartridgeInMonth(cartridges, month))|
    ensures summary.totalCost == summary.chemicalCost + summary.cartridgeCost
    ensures summary.production <= 0.0 ==> summary.costPerM3 == 0.0
    ensures summary.production > 0.0 ==> summary.costPerM3 * summary.production == summary.totalCost
    ensures summary.production <= 0.0 ==> forall i :: 0 <= i < |rows| ==> rows[i].ratePerM3 == 0.0 && rows[i].costRatePerM3 == 0.0
    ensures forall n :: HasName(OutMovementsInMonth(log, month), n) <==> exists i :: 0 <= i < |rows| && rows[i].chemical == n
    ensures |rows| == |Names(OutMovementsInMonth(log, month))|
    ensures forall i :: 0 <= i < |rows| ==>
              rows[i] == RowFor(OutMovementsInMonth(log, month), CostMap(chemicals), summary.production,
                                Names(OutMovementsInMonth(log, month))[i])
    ensures forall i, j :: 0 <= i < j < |rows| ==> rows[i].chemical != rows[j].chemical
  {
    var inMonth := ReadingsInMonth(readings, month);
    var totalProd := TotalProduction(inMonth);
    var outs := OutMovementsInMonth(log, month);
    var totalChemCost;
    rows, totalChemCost := SummarizeChemicals(outs, CostMap(chemicals), totalProd);
    var cart := CartridgeInMonth(cartridges, month);
    var totalCartCost := CartridgeCost(cart);
    ChangeCountIsReplacements(cart);
    var total := totalChemCost + totalCartCost;
    summary := MonthlyCosts(totalProd, totalChemCost, ChangeCount(cart), totalCartCost, total, Rate(total, totalProd));
  }

  /** With non-negative quantities and prices every cost is non-negative. */
  lemma {:induction false} MovementCostNonNegative(outs: seq<Movement>, costs: map<string, real>)
    requires forall i :: 0 <= i < |outs| ==> outs[i].qty >= 0.0
    requires forall n :: n in costs ==> costs[n] >= 0.0
    ensures MovementCost(outs, costs) >= 0.0
  {
    if |outs| > 0 {
      var p := outs[..|outs| - 1];
      assert forall i :: 0 <= i < |p| ==> p[i] == outs[i];
      MovementCostNonNegative(p, costs);
    }
  }

  /** A unit cost that is unknown prices that chemical's consumption at 0. */
  lemma UnknownChemicalCostsNothing(outs: seq<Movement>, costs: map<string, real>, production: real, name: string)
    requires name !in costs
    ensures RowFor(outs, costs, production, name).totalCost == 0.0
    ensures RowFor(outs, costs, production, name).costRatePerM3 == 0.0
  {
  }
}
