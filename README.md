# RO unit dashboard: business rules in Dafny

This project models the rules behind the Streamlit dashboard of a 10 m3/h
reverse-osmosis unit. It covers:

- water-quality compliance: the in-spec rule, the compliance percentage, the
  dashboard's 30-day figures and the monthly report's water KPIs;
- cartridge-filter differential pressure (DP): its derivation, its three status
  bands and the gauge clamp;
- the chemical stock alerts and the stock progress bar;
- the chemical stock ledger: seeding, unit-cost updates and IN / OUT postings
  with a zero floor, with form validation in front of them;
- the monthly consumable-cost aggregation: chemical OUT quantities grouped by
  name and priced, cartridge replacement costs, the totals and the per-m3 rates.

Modules:

- `Records`: the row types, the month and date-window filters, and sums and means.
- `Compliance`, `DifferentialPressure`, `StockAlerts`: pure functions and lemmas.
- `ChemicalLedger`: the table update functions, plus a class `ChemicalStore`.
  Its fields are the chemicals table and the movement log, and its methods
  update them as the database statements do.
- `ConsumableCosts`: the report's pricing loop, as a method with a loop
  invariant. It is proved equal to a per-movement reference total.

The current time, the database, the UI and the PDF writer are not modelled.
The caller passes in the 30-day cutoff date and the selected month.

## Model

| member | source | states |
|---|---|---|
| Records.Filter | app.py:394 | a boolean mask keeps exactly the rows that satisfy it and no others, never more rows than it was given |
| Records.FilterKeepsMultiplicity | app.py:394 | the mask keeps each matching row as many times as it occurs, and drops every other row |
| Records.MeanWithin | app.py:776-777 | the mean of a non-empty column lies between any lower and upper bound of its entries |
| Compliance.ComputeCompliance | app.py:517-531 | empty input gives (0, 0, 0); good days are the in-spec count; good + bad is the number of readings; the percentage is in [0, 100] and equals 100 * good / total |
| Compliance.AllInSpec | app.py:527 | the in-spec count equals the number of readings iff every reading has TDS <= 50 and pH in [6.5, 8.5] |
| Compliance.NoneInSpec | app.py:527 | the in-spec count is 0 iff no reading is in spec |
| Compliance.CountInSpecAppend | app.py:527 | in-spec counts of consecutive stretches of readings add up |
| Compliance.ComplianceExtremes | app.py:517-531 | for non-empty input, 100 % iff all readings are in spec, and 0 % iff none is |
| Compliance.OutOfSpecCountIsBadDays | app.py:778 | the PDF's out-of-spec test counts exactly compute_compliance's bad days, the complement of the in-spec count |
| Compliance.DashboardFigures | app.py:385-403 | no figures at all when there are no readings; zero figures when the 30-day window is empty |
| Compliance.DashboardAgreesWithCompliance | app.py:394-401 | the dashboard's inline percentage and its good and bad days are compute_compliance's results on the window; its production is the window's production sum |
| Compliance.WindowIsTrailing | app.py:394 | a reading is in the window iff it is one of the readings and is dated on or after the cutoff |
| Compliance.MonthWaterKpis | app.py:776-779 | an empty month gives zero KPIs; the out-of-spec days always equal compute_compliance's bad days for that month |
| Compliance.InSpecMonthAverages | app.py:776-778 | a month with every reading in spec has average TDS in [0, 50], average pH in [6.5, 8.5] and no out-of-spec day |
| DifferentialPressure.AdjustedAfter | app.py:705-707 | an after-pressure above the before-pressure becomes exactly the before-pressure; otherwise it is unchanged; so it never exceeds the before-pressure |
| DifferentialPressure.DerivedDp | app.py:705-711 | DP is never negative; it is before minus after when after <= before, and 0 otherwise |
| DifferentialPressure.DerivedDpWithinFormRange | app.py:688-711 | with both inputs in the form's 0 to 10 bar, DP lies in [0, before] and the gauge shows it unclamped |
| DifferentialPressure.StatusOf | app.py:718-723 | Normal iff DP < 1; Warning iff 1 <= DP <= 4; High iff DP > 4 |
| DifferentialPressure.ActionFor | app.py:718-723 | the Normal band means the cartridge is fine, the Warning band means monitor the filter, and replacement is recommended exactly for the High band |
| DifferentialPressure.StatusMonotone | app.py:718-723 | a higher DP never gets a milder band |
| DifferentialPressure.GaugeValue | app.py:337 | the needle value lies in [0, 10], equals DP inside that range, 0 below it and 10 above it |
| DifferentialPressure.GaugeKeepsStatus | app.py:337-345 | the clamped value always gets the same band as the raw DP |
| DifferentialPressure.CartridgeEntry | app.py:739-750 | the saved record carries the date, the remarks, the replacement flag and the derived, non-negative DP; a replacement keeps the entered cost, any other record a zero cost |
| DifferentialPressure.LatestStatus | app.py:385-475 | no band when there are no readings (the page returns early) or no cartridge records; otherwise the band of the last record's DP |
| StockAlerts.MinStockFor | app.py:25-29 | the listed minimum for a listed chemical, 30 kg for any other; never below 25 kg |
| StockAlerts.ContainsIff | app.py:503 | the substring test holds exactly when the pattern occurs at some position of the name |
| StockAlerts.Classify | app.py:497-514 | chlorine or hypochlorite names: urgent iff qty < 50, warning iff 50 <= qty < 80; other names: alert iff qty < minimum, warning iff minimum <= qty < 1.3 * minimum |
| StockAlerts.RuleFor | app.py:503-514 | each chemical's alert threshold lies strictly below its warning threshold |
| StockAlerts.ClassifyIsTableDriven | app.py:497-514 | the special-cased code gives the same alert as a two-threshold rule table for every name and quantity |
| StockAlerts.AlertMonotone | app.py:497-514 | less stock never gives a milder alert |
| StockAlerts.ChlorineRuleOverridesTable | app.py:499-508 | a listed chlorine chemical between 1.3 times its table minimum and 80 kg gets a warning that its table row alone would not give |
| StockAlerts.BaseHypochloriteUsesChlorineRule | app.py:26 | the listed hypochlorite's name contains "Chlorine", so it gets the chlorine rule |
| StockAlerts.BaseHypochloriteWarnsAboveTableBand | app.py:497-508 | the listed hypochlorite with 65 to 80 kg gets a warning, where its table minimum of 50 kg alone would give none |
| StockAlerts.Progress | app.py:500 | the bar fill is at most 1, non-negative for non-negative stock, full at twice the minimum or more, and proportional below it |
| ChemicalLedger.InsertMissing | app.py:159-184 | absent names are added as empty rows, and every existing row keeps its quantity and cost (ON CONFLICT DO NOTHING) |
| ChemicalLedger.InsertPresentIsNoop | app.py:165 | inserting names that are all present changes nothing |
| ChemicalLedger.SeedingAddsOnlyMissing | app.py:159-184 | after both seeding inserts the table holds the old names plus all six base names; old rows are unchanged and new rows are empty |
| ChemicalLedger.SeedingIsIdempotent | app.py:159-184 | running the set-up a second time leaves the table as the first run left it |
| ChemicalLedger.Posted | app.py:288-292 | only the named row changes, and only its quantity; IN adds the quantity; any other kind subtracts it with a floor of 0; an unknown name changes nothing |
| ChemicalLedger.PostingKeepsStockNonNegative | app.py:288-292 | with no negative IN quantity, a posting keeps every balance non-negative |
| ChemicalLedger.OutPostingRemovesAtMostStock | app.py:291-292 | an OUT posting removes exactly min(quantity, stock on hand) and leaves between 0 and the old stock |
| ChemicalLedger.WithUnitCost | app.py:270-276 | only the named row's unit cost changes; no quantity changes; an unknown name changes nothing |
| ChemicalLedger.CostUpdateKeepsStockNonNegative | app.py:270-276 | a cost update keeps every balance non-negative |
| ChemicalLedger.ReplayKeepsStockNonNegative | app.py:279-295 | any history of movements with no negative IN quantity keeps every balance non-negative |
| ChemicalLedger.ReplayLeavesOthersAlone | app.py:279-295 | a chemical that no movement names keeps its row through any history, and no history adds or removes a row |
| ChemicalLedger.InThenOutExample | app.py:288-292 | IN 20 kg on 0 kg gives 20 kg; a following OUT of 35 kg gives 0 kg, not -15 kg |
| ChemicalLedger.ValidateMovement | app.py:658-662 | a movement is accepted iff the name is non-empty and the quantity is positive; a missing name is reported first |
| ChemicalLedger.ChemicalStore.constructor | app.py:115-184 | a new store has an empty table and an empty log |
| ChemicalLedger.ChemicalStore.Seed | app.py:159-184 | the table becomes the seeded table; the log is unchanged; non-negative stock stays non-negative |
| ChemicalLedger.ChemicalStore.UpdateChemicalCost | app.py:270-276 | the table becomes the cost-updated table; the log is unchanged; non-negative stock stays non-negative |
| ChemicalLedger.ChemicalStore.RecordChemicalMovement | app.py:279-295 | the log gains exactly the new movement at its end, and the table becomes the posted table; non-negative stock stays non-negative unless the movement is an IN of a negative quantity |
| ChemicalLedger.ChemicalStore.SaveMovement | app.py:658-665 | a rejected movement changes nothing and returns the validation error; an accepted one is recorded; stock stays non-negative |
| ConsumableCosts.CostMap | app.py:1020 | the cost map has the same names as the chemicals table, each with its unit cost |
| ConsumableCosts.Rate | app.py:1032-1033 | 0 when production is not positive; otherwise the rate times production gives back the amount |
| ConsumableCosts.QtyOfAbsent | app.py:1022 | a chemical with no OUT movement has a grouped quantity of 0 |
| ConsumableCosts.Names | app.py:1022 | the group keys are exactly the names of the movements, each once |
| ConsumableCosts.QtyOfAfterMovement | app.py:1022 | one more movement adds its quantity to its own chemical's group and leaves every other group unchanged |
| ConsumableCosts.GroupCostAfterMovement | app.py:1022-1031 | one more movement adds its price to its own chemical's group cost and leaves every other group cost unchanged |
| ConsumableCosts.NamesCostAfterMovement | app.py:1022-1031 | for a duplicate-free list of names, one more movement adds its price to the summed group costs iff its name is listed |
| ConsumableCosts.GroupedCostIsMovementCost | app.py:804-811 | grouping by name and then pricing each group gives the same total as pricing every movement separately |
| ConsumableCosts.SummarizeChemicals | app.py:1022-1043 | one row per chemical with an OUT movement, each chemical once; each row holds its group quantity, unit cost, cost and the two rates; the running total is the per-movement priced total |
| ConsumableCosts.CartridgeCostNonNegative | app.py:739-746 | replacement costs are never negative, so the month's cartridge cost is never negative |
| ConsumableCosts.ChangeCount | app.py:1062 | the number of replacements never exceeds the number of cartridge records |
| ConsumableCosts.ChangeCountIsReplacements | app.py:1062 | the change count is the number of records marked as replacements |
| ConsumableCosts.MonthlyReport | app.py:960-1072 | the month's production, chemical cost, cartridge count and cost come from that month's rows, and only OUT movements count; total = chemical + cartridge; cost per m3 times production gives the total, or it is 0 without production; one row per consumed chemical, each once, holding its grouped quantity, unit cost, cost and rates; the change count is the number of replacement records |
| ConsumableCosts.MovementCostNonNegative | app.py:1026-1031 | non-negative quantities and unit costs give a non-negative chemical cost |
| ConsumableCosts.UnknownChemicalCostsNothing | app.py:1029-1033 | a chemical without a chemicals row is priced at 0 and has a zero cost rate |

## Left out

- Compliance.ComputeCompliance: the percentage is exact. It is not rounded to one decimal, and the dashboard's one-decimal formatting is also not modelled.
- ConsumableCosts.SummarizeChemicals: the rows come in order of first movement. pandas' groupby sorts them by name. The summary's set of rows and its totals do not depend on that order.
- ConsumableCosts.MonthlyReport: the PDF (create_pdf, app.py:765-881) repeats this computation. The PDF itself is not modelled separately; only its water KPIs are (Compliance.MonthWaterKpis).
- Quantities, pressures and costs are mathematical reals. Floating-point rounding, NaN and the `fillna` defaults for missing columns are not modelled.
- Compliance.OutOfSpecCountIsBadDays: it holds only for readings without a missing (NaN) TDS. With a NaN TDS and a pH in range, compute_compliance counts the reading as bad, but the PDF's out-of-spec test does not count it. A missing pH fails both tests alike, because pandas' between is false for it.
- DifferentialPressure.LatestStatus: the history is passed in date order, as the query returns it. The order of records on the same date is not modelled.
- Dates are calendar triples. The dashboard's cutoff of `datetime.now()` minus 30 days is passed in as a date. The time of day in that comparison is not modelled.
- The database connection, SQL execution, commits and the "no connection" early returns are not modelled. The tables are plain values, and the store mutates them.
- The schema set-up creates the chemicals table twice, and the second CREATE TABLE IF NOT EXISTS has no effect. The model starts from an existing table. init_postgres (app.py:115) is only defined and never called from the app's entry point, but its seeding is modelled as ChemicalStore.Seed.
- The Streamlit pages, charts, KPI cards, the gauge drawing and the stock-value column are presentation only, and they are not modelled.
- The maintenance report and its PDF only list rows, and they are not modelled.
- The data migration script (migrate_ro_to_neon.py) is not part of this model.
- StockAlerts.Classify and StockAlerts.Progress: the dashboard reaches the stock alerts and bars only when at least one reading exists (app.py:385-388). Each member gives the alert and fill of one chemical row; that early return is modelled in Compliance.DashboardFigures and DifferentialPressure.LatestStatus only.
