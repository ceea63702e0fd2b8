# Sales dashboard consolidation, modelled in Dafny

The sales dashboard of three Cameroonian agencies (Douala, Yaoundé,
Garoua) keeps one sales table per agency and a global table. Each loader
stores a decoded table and stamps the agency's fixed label into its
`Agence` column. `consolidere_donnees` concatenates the three tables in
the order Douala, Yaoundé, Garoua. When a `Date` column exists, it parses
the dates and adds the month number `Mois` and the month name `Mois_Nom`.
`calculer_kpis` returns the grand total of `Montant` and three
group-by-sums: per agency, per (agency, seller) and per (month number,
month name). It returns the empty result when nothing has been
consolidated.

Files:

- `wrappers.dfy`: the `Option` and `Result` types.
- `frames.dfy` (module `Frames`):
  - rows, date cells and tables with their optional `Date` and month columns;
  - the agency stamp;
  - the concatenation and the month derivation;
  - losslessness, order and agency-origin lemmas.
- `rollups.dfy` (module `Rollups`):
  - the generic group-by-sum `GroupSum` over a key that may be null;
  - the sum `MapSum` of a map's values;
  - the lemmas that relate them to the rows' total.
- `kpis.dfy` (module `Aggregation`):
  - the four KPIs;
  - the sum-consistency lemmas between them;
  - the per-agency rollup of a consolidated table.
- `dashboard.dfy` (module `SalesDashboard`):
  - the `Dashboard` class, whose four fields the methods assign;
  - the application's load, consolidate and compute sequence.
- `scenarios.dfy` (module `Scenarios`): worked examples on small tables.

Two behaviours of the code that the model keeps:

- **Absent tables.** `pd.concat` skips a table that was never loaded and
  raises only when all three are absent (`Frames.Concat`,
  `Frames.PresentCounts`). The application calls the consolidation only
  once all three files are uploaded (main.py:86), and
  `SalesDashboard.RunPipeline` follows that sequence.
- **Bad dates.** `df_global` is assigned the concatenation (main.py:38)
  before the dates are parsed (main.py:42). So a date that cannot be
  parsed raises, and the global table is left holding the raw
  concatenation without the derived month columns
  (`SalesDashboard.Dashboard.Consolidate`).

## Model

| member | source | states |
|---|---|---|
| SalesDashboard.Dashboard.constructor | main.py:9-13 | all four tables start absent |
| SalesDashboard.FreshDashboardHasNoKpis | main.py:50-51 | computing the KPIs of a fresh dashboard gives the empty result |
| SalesDashboard.Dashboard.LoadDouala | main.py:15-19 | stores the table with every `Agence` set to "Douala", returns it, and may change no other field |
| SalesDashboard.Dashboard.LoadYaounde | main.py:21-25 | stores the table with every `Agence` set to "Yaoundé", returns it, and may change no other field |
| SalesDashboard.Dashboard.LoadGaroua | main.py:27-33 | stores the table with every `Agence` set to "Garoua", returns it, and may change no other field |
| Frames.Stamp | main.py:18 | the same number of rows, each with the new label and every other cell unchanged; the column set is unchanged |
| Frames.AgencyLabelsDistinct | main.py:18 | the three labels are pairwise different |
| Frames.Present | main.py:37-38 | no more tables than slots; none are left exactly when none was loaded |
| Frames.PresentCounts | main.py:37-38 | each loaded table is kept as many times as it occurs in the list, and no other table is |
| Frames.PresentAppend | main.py:37-38 | the loaded tables of two lists put together are those of the first list, then those of the second, in order |
| Frames.Concat | main.py:37-38 | fails, with the no-tables error, exactly when every table is absent |
| Frames.ConcatInOrder | main.py:37-38 | three loaded tables concatenate to their rows in order (Douala, Yaoundé, Garoua) with the union of their columns |
| Frames.DaysInMonth | main.py:42 | 28 to 31 days; 29 exactly in February of a leap year |
| Frames.MonthName | main.py:44 | a month number 1..12 has a name of at least three letters |
| Frames.MonthNamesDistinct | main.py:44 | two months 1..12 have the same name exactly when they are the same month |
| Frames.FirstBadDate | main.py:42 | absent exactly when every non-null date cell is a calendar date; otherwise an invalid cell of some row, every earlier row's date parsing |
| Frames.WithMonth | main.py:43-44 | the row keeps its agency, seller, amount and date, and its month columns hold its date's month and that month's name, or stay null when the date is null |
| Frames.AddMonths | main.py:41-44 | with no Date column the table is unchanged; otherwise it succeeds exactly when every date parses, adds the month columns derived from each row's date, and keeps every other cell and the row count; a failure names an invalid cell taken from the table's Date column, the first such in row order |
| Frames.ConsolidatedLossless | main.py:35-46 | consolidation fails only on a bad date; on success the global table has the three tables' rows, in order, with their agency, seller, amount and date |
| Frames.ConsolidatedAgencies | main.py:35-46 | after the three loaders, every global row's agency is one of the three labels, namely that of the table it came from |
| Frames.ConsolidatedSucceeds | main.py:37-42 | consolidating three tables succeeds exactly when every Date cell of every table parses; a table without a Date column never makes it fail |
| Frames.StampKeepsDates | main.py:18 | stamping leaves every Date cell as it was, so whether they all parse is unchanged |
| Frames.NoDateNoMonths | main.py:41 | with no Date column anywhere, consolidation adds no month columns and returns the plain concatenation |
| Frames.DatedMonthsDerived | main.py:41-44 | with a Date column, a successful consolidation gives every row a month 1..12 and month name derived from its date |
| SalesDashboard.Dashboard.Consolidate | main.py:35-46 | the result is the consolidation of the three stored tables; `df_global` is unchanged when none is loaded, is the raw concatenation after a bad date, and is the result otherwise; the source tables are untouched |
| Rollups.KeysPresent | main.py:56 | a key is present exactly when some row matches it |
| Rollups.Keyed | main.py:56 | only rows of the input with a non-null key, and all rows when no key is null |
| Rollups.KeyedCounts | main.py:56 | every row with a non-null key is kept as many times as it occurs, and no row with a null key is |
| Rollups.GroupSumSpec | main.py:56-62 | group-by-sum has exactly the keys some row carries (null keys dropped), each mapped to the total of its rows |
| Rollups.GroupSumTotal | main.py:53-62 | the group-by-sum's values add up to the total of the rows with a non-null key |
| Rollups.MatchingNonEmpty | main.py:56-62 | some row matches a key exactly when some row's key equals it |
| Rollups.MatchingAppend | main.py:38 | the rows of a concatenation matching a key are those of each part, in order |
| Aggregation.AgencyRollup | main.py:53-56 | the per-agency keys are exactly the agencies present, each value is that agency's total, and the values add up to the grand total |
| Aggregation.SellersOf | main.py:59 | an agency's part of the per-seller rollup, key for key |
| Aggregation.SellersOfIsGroupSum | main.py:59 | an agency's part of the per-seller rollup is the group-by-seller of that agency's rows |
| Aggregation.SellerRollupSplitsAgency | main.py:56-59 | with no null seller, an agency's per-seller amounts add up to its per-agency amount |
| Aggregation.MonthRollup | main.py:53-62 | each month key pairs a number 1..12 with its own name; with every row dated, the month rollup adds up to the grand total |
| Aggregation.ComputeKpis | main.py:48-69 | empty result without a global table; a missing-column error without the month columns; otherwise a grand total equal to the rows' total, and per-agency, per-(agency, seller) and per-(month number, month name) rollups each with exactly the non-null keys some row carries, each mapped to the total of that key's rows; the per-agency amounts add up to the grand total |
| Aggregation.ConsolidatedAgencyTotals | main.py:35-56 | after loading and consolidating, the grand total is the three tables' totals together, and the per-agency rollup has an entry exactly for each non-empty table, equal to its total |
| Aggregation.ConsolidatedKpis | main.py:35-69 | for the three stamped tables: consolidation succeeds exactly when every date parses and otherwise fails on a bad date; the KPIs then fail only for want of the month columns, which happens exactly when no table has a Date or month column; otherwise the total and per-agency entries are the three tables' own |
| SalesDashboard.Dashboard.ComputeKpisNow | main.py:48-69 | the KPIs of the current global table |
| SalesDashboard.RunPipeline | main.py:89-95 | the outcome is a date or month-column error, or KPIs whose total and per-agency entries are those of the three tables; it succeeds exactly when every date parses and some table has a Date or month column; with none it is the missing-column error |
| SalesDashboard.RerunIsStable | main.py:35-69 | consolidating and computing the KPIs again on the same dashboard gives the same KPIs |
| Scenarios.ThreeAgenciesScenario | main.py:35-69 | any dated tables with Douala sales of 400 and 600, Yaoundé 500 and Garoua 250 give a total of 1750 and the per-agency rollup {Douala: 1000, Yaoundé: 500, Garoua: 250} |
| Scenarios.ThreeAgenciesRowCount | main.py:37-38 | tables of two, one and one rows whose dates parse consolidate to four rows |
| Scenarios.SameSellerScenario | main.py:59 | two sales of 100 and 200 by seller X of agency A give exactly {(A, X): 300} |

## Left out

- File decoding is not modelled: `pd.read_excel`, `pd.read_csv` and `json.load` (main.py:17, 23, 29-31), with pandas' type inference. Each loader takes an already decoded table.
- Date parsing is reduced to a check. A date cell is a (year, month, day) triple, and it parses when it is a day of the Gregorian calendar. The string formats `pd.to_datetime` accepts and its timestamp range are not modelled.
- Month names are the English ones. `strftime('%B')` depends on the process locale.
- `Montant` is an integer that is never null. Float amounts and pandas' skipping of NaN in `sum()` are not modelled.
- The `Montant`, `Agence` and `Vendeur` columns are assumed present. Only a missing `Mois`/`Mois_Nom` raises the missing-column error.
- `Mois` and `Mois_Nom` are treated as one column pair.
- Columns the rollups do not read are not modelled, nor is the column-union of the schema for them.
- Everything in `main()` after the KPI call (main.py:96 onwards) is not modelled: the Streamlit page, uploads, charts, display formatting and the catch-all `except`. RunPipeline stands for the call sequence at main.py:89-95 and stops at the first error.
- Pandas' `Series` and index types are not modelled. The rollups are finite maps from key to amount.
