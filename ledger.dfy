/**
 * The chemical stock ledger: the chemicals table (name -> quantity on hand and
 * unit cost) and the append-only chemical_movements log, with base-chemical
 * seeding, unit-cost updates and the posting of IN / OUT movements.
 */
module ChemicalLedger {
  import opened Wrappers
  import opened Records

  /** One row of the chemicals table, keyed by name. */
  datatype Chemical = Chemical(qty: real, unitCost: real)

  type Table = map<string, Chemical>

  /** The base chemicals seeded by the first insert. */
  const BASE_CHEMICALS: seq<string> := ["Sodium Hypochlorite (Chlorine)", "Hydrochloric Acid (HCL)", "Antiscalant PC-391"]

  /** The short-named base chemicals seeded by the second insert. */
  const SHORT_BASE_CHEMICALS: seq<string> := ["Chlorine", "HCL", "BC"]

  /** A row created by seeding: no stock, no cost. */
  const EMPTY_ROW: Chemical := Chemical(0.0, 0.0)

  /** INSERT ... ON CONFLICT (name) DO NOTHING, one name after the other. */
  function InsertMissing(t: Table, names: seq<string>): (r: Table)
    ensures forall n :: n in r <==> n in t || n in names
    ensures forall n :: n in t ==> r[n] == t[n]
    ensures forall n :: n in r && n !in t ==> r[n] == EMPTY_ROW
    decreases |names|
  {
    if |names| == 0 then t
    else
      var n := names[0];
      var t' := if n in t then t else t[n := EMPTY_ROW];
      assert forall m :: m in names <==> m == n || m in names[1..];
      InsertMissing(t', names[1..])
  }

  /** Inserting names that are all present changes nothing. */
  lemma InsertPresentIsNoop(t: Table, names: seq<string>)
    requires forall n :: n in names ==> n in t
    ensures InsertMissing(t, names) == t
  {
    var r := InsertMissing(t, names);
    assert r.Keys == t.Keys;
  }

  /** The two seeding inserts of the schema set-up. */
  function Seeded(t: Table): Table
  {
    InsertMissing(InsertMissing(t, BASE_CHEMICALS), SHORT_BASE_CHEMICALS)
  }

  /** Seeding only adds absent base names, empty, and leaves every existing row as it was. */
  lemma SeedingAddsOnlyMissing(t: Table)
    ensures forall n :: n in Seeded(t) <==> n in t || n in BASE_CHEMICALS || n in SHORT_BASE_CHEMICALS
    ensures forall n :: n in t ==> Seeded(t)[n] == t[n]
    ensures forall n :: n in Seeded(t) && n !in t ==> Seeded(t)[n] == EMPTY_ROW
  {
  }

  /** Seeding twice is seeding once. */
  lemma SeedingIsIdempotent(t: Table)
    ensures Seeded(Seeded(t)) == Seeded(t)
  {
    var s := Seeded(t);
    SeedingAddsOnlyMissing(t);
    InsertPresentIsNoop(s, BASE_CHEMICALS);
    InsertPresentIsNoop(s, SHORT_BASE_CHEMICALS);
  }

  /** The balance update of a movement: IN adds, anything else subtracts with a floor of 0. */
  function Posted(t: Table, name: string, kind: string, q: real): (r: Table)
    ensures r.Keys == t.Keys
    ensures forall n :: n in t && n != name ==> r[n] == t[n]
    ensures name in t ==> r[name].unitCost == t[name].unitCost
    ensures name in t && kind == IN_KIND ==> r[name].qty == t[name].qty + q
    ensures name in t && kind != IN_KIND ==> r[name].qty == (if t[name].qty - q > 0.0 then t[name].qty - q else 0.0)
  {
    if name !in t then t
    else
      var row := t[name];
      var qty := if kind == IN_KIND then row.qty + q
                 else if row.qty - q > 0.0 then row.qty - q else 0.0;
      t[name := Chemical(qty, row.unitCost)]
  }

  /** No chemical's stock is negative. */
  predicate NonNegative(t: Table)
  {
    forall n :: n in t ==> t[n].qty >= 0.0
  }

  /** An OUT posting never drives a balance negative, nor does an IN of a non-negative quantity. */
  lemma PostingKeepsStockNonNegative(t: Table, name: string, kind: string, q: real)
    requires NonNegative(t)
    requires kind == IN_KIND ==> q >= 0.0
    ensures NonNegative(Posted(t, name, kind, q))
  {
  }

  /** An OUT posting removes q, or everything when less than q is on hand. */
  lemma OutPostingRemovesAtMostStock(t: Table, name: string, kind: string, q: real)
    requires name in t && kind != IN_KIND && q >= 0.0 && t[name].qty >= 0.0
    ensures 0.0 <= Posted(t, name, kind, q)[name].qty <= t[name].qty
    ensures t[name].qty - Posted(t, name, kind, q)[name].qty == (if q < t[name].qty then q else t[name].qty)
  {
  }

  /** UPDATE chemicals SET unit_cost = cost WHERE name = name. */
  function WithUnitCost(t: Table, name: string, cost: real): (r: Table)
    ensures r.Keys == t.Keys
    ensures forall n :: n in t ==> r[n].qty == t[n].qty
    ensures forall n :: n in t && n != name ==> r[n] == t[n]
    ensures name in t ==> r[name].unitCost == cost
  {
    if name in t then t[name := Chemical(t[name].qty, cost)] else t
  }

  /** A cost update never touches quantities, so it keeps stock non-negative. */
  lemma CostUpdateKeepsStockNonNegative(t: Table, name: string, cost: real)
    requires NonNegative(t)
    ensures NonNegative(WithUnitCost(t, name, cost))
  {
  }

  /** The balances after posting a history of movements in order. */
  function Replay(t: Table, log: seq<Movement>): Table
  {
    if |log| == 0 then t
    else
      var last := log[|log| - 1];
      Posted(Replay(t, log[..|log| - 1]), last.name, last.kind, last.qty)
  }

  /** Replaying a history whose IN quantities are non-negative keeps every balance non-negative. */
  lemma {:induction false} ReplayKeepsStockNonNegative(t: Table, log: seq<Movement>)
    requires NonNegative(t)
    requires forall i :: 0 <= i < |log| && log[i].kind == IN_KIND ==> log[i].qty >= 0.0
    ensures NonNegative(Replay(t, log))
  {
    if |log| > 0 {
      var p := log[..|log| - 1];
      assert forall i :: 0 <= i < |p| ==> p[i] == log[i];
      ReplayKeepsStockNonNegative(t, p);
      var last := log[|log| - 1];
      PostingKeepsStockNonNegative(Replay(t, p), last.name, last.kind, last.qty);
    }
  }

  /** A chemical that no movement names keeps its row through any history. */
  lemma {:induction false} ReplayLeavesOthersAlone(t: Table, log: seq<Movement>, n: string)
    requires forall i :: 0 <= i < |log| ==> log[i].name != n
    ensures Replay(t, log).Keys == t.Keys
    ensures n in t ==> Replay(t, log)[n] == t[n]
  {
    if |log| > 0 {
      var p := log[..|log| - 1];
      assert forall i :: 0 <= i < |p| ==> p[i] == log[i];
      ReplayLeavesOthersAlone(t, p, n);
    }
  }

  /** A chemical at 0 kg receives 20 kg and then issues 35 kg: it holds 20 kg, then 0 kg, never less. */
  lemma InThenOutExample(t: Table, d: Date)
    requires "HCL" in t && t["HCL"] == Chemical(0.0, 5.0)
    ensures var afterIn := Posted(t, "HCL", IN_KIND, 20.0);
            afterIn["HCL"] == Chemical(20.0, 5.0)
            && Posted(afterIn, "HCL", OUT_KIND, 35.0)["HCL"] == Chemical(0.0, 5.0)
    ensures var r := Replay(t, [Movement(d, "HCL", IN_KIND, 20.0, ""), Movement(d, "HCL", OUT_KIND, 35.0, "")]);
            "HCL" in r && r["HCL"] == Chemical(0.0, 5.0)
  {
    var log := [Movement(d, "HCL", IN_KIND, 20.0, ""), Movement(d, "HCL", OUT_KIND, 35.0, "")];
    assert log[..1] == [log[0]];
    assert [log[0]][..0] == [];
    assert Replay(t, log[..1]) == Posted(t, "HCL", IN_KIND, 20.0);
    assert Replay(t, log) == Posted(Replay(t, log[..1]), "HCL", OUT_KIND, 35.0);
  }

  /** Why the chemicals page refuses a movement. */
  datatype MovementError = MissingName | NonPositiveQuantity

  /** The page's checks, in its order: a name first, then a positive quantity. */
  function ValidateMovement(name: string, q: real): (e: Option<MovementError>)
    ensures e.None? <==> name != "" && q > 0.0
    ensures name == "" ==> e == Some(MissingName)
    ensures name != "" && q <= 0.0 ==> e == Some(NonPositiveQuantity)
  {
    if name == "" then Some(MissingName)
    else if q <= 0.0 then Some(NonPositiveQuantity)
    else None
  }

  /** The store behind the chemicals page: the chemicals table and the movement log. */
  class ChemicalStore {
    var chemicals: Table
    var movements: seq<Movement>

    /** Freshly created tables hold no rows. */
    constructor ()
      ensures chemicals == map[] && movements == []
    {
      chemicals := map[];
      movements := [];
    }

    /** The seeding of base chemicals in the schema set-up. */
    method Seed()
      modifies this
      ensures chemicals == Seeded(old(chemicals))
      ensures movements == old(movements)
      ensures old(NonNegative(chemicals)) ==> NonNegative(chemicals)
    {
      chemicals := InsertMissing(chemicals, BASE_CHEMICALS);
      chemicals := InsertMissing(chemicals, SHORT_BASE_CHEMICALS);
    }

    /** update_chemical_cost: changes one row's unit cost, if the row exists. */
    method UpdateChemicalCost(name: string, cost: real)
      modifies this
      ensures chemicals == WithUnitCost(old(chemicals), name, cost)
      ensures movements == old(movements)
      ensures old(NonNegative(chemicals)) ==> NonNegative(chemicals)
    {
      chemicals := WithUnitCost(chemicals, name, cost);
    }

    /**
     * record_chemical_movement: appends one movement and updates that
     * chemical's balance (a name with no row is logged but changes no balance).
     */
    method RecordChemicalMovement(date: Date, name: string, kind: string, qty: real, remarks: string)
      modifies this
      ensures movements == old(movements) + [Movement(date, name, kind, qty, remarks)]
      ensures chemicals == Posted(old(chemicals), name, kind, qty)
      ensures old(NonNegative(chemicals)) && (kind == IN_KIND ==> qty >= 0.0) ==> NonNegative(chemicals)
    {
      movements := movements + [Movement(date, name, kind, qty, remarks)];
      chemicals := Posted(chemicals, name, kind, qty);
      if old(NonNegative(chemicals)) && (kind == IN_KIND ==> qty >= 0.0) {
        PostingKeepsStockNonNegative(old(chemicals), name, kind, qty);
      }
    }

    /** The Save Movement button: validate, and only then record. */
    method SaveMovement(date: Date, name: string, kind: string, qty: real, remarks: string)
      returns (e: Option<MovementError>)
      modifies this
      ensures e == ValidateMovement(name, qty)
      ensures e.Some? ==> chemicals == old(chemicals) && movements == old(movements)
      ensures e.None? ==> movements == old(movements) + [Movement(date, name, kind, qty, remarks)]
      ensures e.None? ==> chemicals == Posted(old(chemicals), name, kind, qty)
      ensures old(NonNegative(chemicals)) ==> NonNegative(chemicals)
    {
      e := ValidateMovement(name, qty);
      if e.None? {
        RecordChemicalMovement(date, name, kind, qty, remarks);
      }
    }
  }
}
