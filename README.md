# Legion 360 accounting engine — a Dafny model

Legion 360 is a small bookkeeping application for a company run by partners. It records purchases (`Compra`), sales (`Venta`) and, in the legacy application, personal purchases (`CompraPersonal`). Each record is booked to a partner (`Socio`, of kind "Socio" or "Empresa") and to a cash box. From these records the application derives a set of reports.

The reports modelled here:

- **Dashboard** (`index`): for a year and a month, the period's net sales and purchases, their VAT, the creditable purchase VAT under the deductible percentages, the VAT payable, the personal VAT split between company and partners, the number of unpaid rows, and each partner's net gain.
- **Partner summary** (`build_resumen_socio`): per partner, the company, seller and partner margins, the margins owed on the other partners' gains, the box balance and the rest.
- **Cash ledger** (`resumen_caja`): per box, its movements sorted by transaction and date and coloured by transaction, and its rounded balance.
- **ARCA listing and totals** (`build_resumen_arca`, `resumen_arca`, `build_totales_arca`, `totales_arca`): one flat row per voucher, filtered by period and voucher type; then the rows grouped by (period, operation), with a technical VAT balance and a per-period result.
- **ARCA service** (`app/services/arca.py`): the same listing built from two SQL queries, restricted to A and B vouchers, and its totals with a per-period VAT balance.
- **Parameters** (`get_param`, `_read_param_any`): a table of numeric settings where a missing key is created with its default.
- **Import helpers**: reading yes/no and percentage cells, normalising a Google Sheets address, and filling in missing partner margins.
- **Legacy application** (`app.py`): its versions of the listing, the totals, the partner summary, the dashboard and the margin backfill, each related to the current one.

## Structure

| module | file | models |
|---|---|---|
| `Common`, `Text`, `Sorting`, `Grouping`, `Totals` | common, text, sorting, grouping, totals | Helpers: Python's `round(x, 2)`, `str.strip`/`upper`/`lower`/`zfill`, the stable `list.sort`, grouped sums and the accumulate-then-sort pattern of the totals |
| `Invoice` | invoice.dfy | `_split_fact` and the `factnum` filter |
| `Period` | period.dfy | `ym_from_date` and the period filters of the dashboard and the partner summary |
| `Params` | params.dfy | the parameter table, as a class `ParamStore` whose `values` map the reads update |
| `Records` | records.dfy | the stored entities, and the total-with-VAT fallback |
| `Vat` | vat.dfy | the deductible percentage and the creditable-VAT loop of the dashboard |
| `Caja` | caja.dfy | `resumen_caja` and `color_index` |
| `Margins` | margins.dfy | `build_resumen_socio` |
| `Dashboard` | dashboard.dfy | `index` |
| `Arca` | arca.dfy | `build_resumen_arca`, `resumen_arca`, `build_totales_arca`, `totales_arca` |
| `ArcaService` | arca_service.dfy | `app/services/arca.py` |
| `Import` | imports.dfy | `_to_bool_si_no`, `_to_pct`, `_normalize_gsheet_export_url`, the margin backfill |
| `Legacy` | legacy.dfy | the legacy `app.py` versions, each related to the current one |

## Modelling choices

- **Money** is exact `real`. Python's `round(x, 2)` is `Common.Round2`: round half to even at the cent, applied to the exact value.
- **Records** are datatypes and the database tables are sequences in store order.
  - A nullable column is an `Option`.
  - A NULL `personal` flag counts as not personal.
- **ParamStore** is a class: `get_param` and `_read_param_any` are methods that may add the default to its `values`. The function `GetParamSpec` (or `ReadAnySpec`) states what they return and the table afterwards.
- **Loops** become methods proved against a function of their inputs: the dashboard's creditable-VAT loop, the partner loops, the ledger loops, the accumulate and fill loops of the totals. The margin backfill mutates the partners in place, so it runs over an `array<Partner>`.
- **md5.** `color_index` takes the md5 digest as a parameter `md5: string -> nat`, the digest read as an integer.
- **Sorting.** Python's `list.sort` and `sorted` are `Sorting.Sort`, a stable sort. A sort with a key is a sort under the preorder that key induces.
- **Filters and sums.** SQL filters are `Common.Filter`. `SUM(a + b)`, which skips a row where either column is NULL, is `Vat.SqlVat`.
- **Sentinels.** The dashboard's "all years" and "all months" values 1313 and 13 are `Period.AllYears` and `Period.AllMonths`.
  - The "none" filter keeps the rows whose id is -1, as the source writes it.
  - The year filter matches `ym LIKE '<year>-%'` with the year printed unpadded. So a row of a year below 1000 is not in its own year's view; `Period.OwnPeriodMatches` carries this as `1000 <= year`.
- **Box balance in the partner summary.** `Margins.Rest` takes the absolute box balance for every partner other than "Legion" and the signed balance for "Legion" (main.py:454-461); `Margins.RestFacts` states both cases.
- **Deductible percentage.** The cash ledger uses the stored deductible percentage unclamped, 1 when it is missing (main.py:1149), while the dashboard clamps it to [0, 1] (main.py:742-743). `Caja.PurchaseOutflow` follows the ledger, and `Caja.OutflowAgainstCredit` states where the two agree.

## Model

| member | source | states |
|---|---|---|
| Invoice.PvAndNumber | main.py:503-514 | The last eight digits are the number (zero-padded to eight when shorter); the leading digits are the point of sale, read as an integer and padded to at least four digits, or 1 when there are none |
| Invoice.SplitFact | main.py:500-514 | The triple is empty exactly when the stripped value holds no digit; otherwise the number has eight digits, the point of sale four or more, and the formatted form is `pv-num` |
| Invoice.FormatAgreesWithSplit | main.py:216-233 | The `factnum` filter shows nothing for a missing value, the stripped text when it holds no digit, and otherwise exactly the formatted split |
| Invoice.JoinedSplit | main.py:500-514 | A point of sale of four or more digits joined with an eight-digit number splits back into those parts, the point of sale normalised |
| Invoice.SplitFactIdempotent | main.py:500-514 | Splitting a formatted invoice number again gives the same triple |
| Invoice.SplitShort | main.py:503-505 | Up to eight digits: point of sale 0001 and the digits zero-padded to eight |
| Invoice.SplitZeroPointOfSale | main.py:506-514 | Leading digits that are all zeros give point of sale 0000, and the last eight digits stay the number |
| Period.YmFromDateShape | main.py:150-166 | A date's period key is `DDDD-DD`, and its year and month read back from it |
| Period.YmFromDateInjective | main.py:150-166 | Two dates have the same period key exactly when they share year and month |
| Period.IsoPrefixIsYm | main.py:557 | The first seven characters of a date's ISO form are its period key, which the ARCA views filter on |
| Period.MonthLabelIsPlain | main.py:702-705 | A month label is never "all", "none", empty or ending in "-*" |
| Period.YearLabelIsPrefix | main.py:694-697 | A year label ends in "-*", and what precedes it is the year |
| Period.ParseOfLabel | main.py:333-345 | The partner summary, given the label the dashboard computes, applies the same filter as the dashboard for every year and month |
| Period.SelectorLabelKeywords | main.py:691-706 | The label is "all", "none" or a year label exactly in the three sentinel cases |
| Period.OwnPeriodMatches | main.py:691-706 | A row is kept by its own month's filter, and by its own year's filter when the year has four digits |
| Period.ExactSelectorSeparates | main.py:702-705 | A month's filter never keeps a row of another month |
| Params.GetParamOr | main.py:257-265 | With a default, the value is the stored one or the default, and the table afterwards maps the key to it |
| Params.GetParamFacts | main.py:257-265 | A stored key is returned and nothing changes; a missing key fails without a default, and with one it is stored and returned; no other key is touched |
| Params.GetParamStable | main.py:257-265 | After a successful read, reading again returns the same value and leaves the table as it is |
| Params.FirstPresentFrom | main.py:279-288 | The position found is the first key from `i` on that the table holds; none means no key from `i` on is held |
| Params.ReadAnyFacts | main.py:277-302 | An empty key list fails; the first key present is returned with no change; the table changes only when no key is present and a default is given, and then only the first key is created |
| Params.ReadAnySingleKey | main.py:277-302 | Reading a single key is `get_param` on it, same value and same table, up to the error reported |
| Params.ReadAnyStable | main.py:277-302 | After a successful read, reading again returns the same value and leaves the table as it is |
| Params.KeysOf | app.py:128-139 | Every key of the list of defaults is in the set |
| Params.SeedFacts | app.py:128-139 | After seeding, the keys are the old ones plus the listed ones; present values are kept, and a missing key gets the first value listed for it |
| Params.StartupSeeds | app.py:128-139 | After the legacy start-up the four margins and the name flag exist, a missing one with its default (0.53, 0.20, 0.09, 1), and every stored value is kept |
| Params.ParamStore.constructor | main.py:236-265 | The store starts with the given table |
| Params.ParamStore.GetParam | main.py:236-265 | Returns and leaves the table `GetParamSpec` describes |
| Params.ParamStore.ReadParamAny | main.py:267-302 | Returns and leaves the table `ReadAnySpec` describes, trying the keys in order |
| Params.ParamStore.SeedStartupDefaults | app.py:128-139 | The table afterwards is the old one seeded with the four start-up defaults |
| Records.TotalWithVatFacts | main.py:545-552 | A stored non-zero total is used as it is; a zero fallback means the amounts add to zero; storing the derived total and deriving again changes nothing |
| Records.PurchasesInFacts | main.py:691-706 | The period filter keeps exactly the purchases it matches, in store order, and "all" keeps every purchase |
| Records.SalesInFacts | main.py:691-706 | The same for sales |
| Vat.EffectivePct | main.py:740-743 | The percentage lies in [0, 1]: the purchase's own one clamped, or else the personal or the normal default clamped |
| Vat.PartnersPersonalShare | main.py:827-829 | The partners' share of the personal VAT is never negative, and is the total less the company's credit when that is not larger |
| Vat.CreditableVat | main.py:738-746 | The loop's creditable VAT and its personal part are the sums of each purchase's credit and of each personal purchase's credit |
| Vat.CreditBounds | main.py:738-746 | With non-negative VAT, the credit lies between zero and the purchase VAT, and its personal part between zero and the credit |
| Vat.CreditOfOne | main.py:740-746 | For one purchase: 0 ≤ its personal credit ≤ its credit ≤ its VAT |
| Vat.EffectiveMonotone | main.py:742-743 | A higher normal default never lowers a purchase's percentage |
| Vat.CreditMonotone | main.py:738-746 | A higher normal default never lowers the creditable VAT |
| Vat.NoPersonalNoShare | main.py:721-746 | Without personal purchases, the personal VAT, its credit and the partners' share are all zero |
| Vat.PartnersCarryTheRest | main.py:721-746 | When personal purchases have both VAT columns, personal VAT less its credit is the sum of each one's uncredited VAT |
| Vat.PartnersShareIsTheRest | main.py:827-829 | Under that condition and non-negative VAT, the partners' share is exactly that uncredited VAT |
| Vat.RestNonNegative | main.py:740-746 | With non-negative VAT, the uncredited personal VAT is never negative |
| Caja.OutflowAgainstCredit | main.py:1144-1155 | A purchase with its own percentage in [0, 1] takes out its gross amount less the VAT the dashboard credits; one without a percentage takes out only its net |
| Caja.OutflowBounds | main.py:1144-1155 | With an in-range percentage and non-negative VAT, a purchase's outflow lies between its net and its gross amount |
| Caja.BoxesHaveMovements | main.py:1135-1187 | A box has a statement exactly when some selected purchase or sale names it, and then its statement is not empty |
| Caja.CollectPurchases | main.py:1138-1166 | The purchase loop opens one statement per named box, holding that box's purchase movements in store order |
| Caja.CollectSales | main.py:1170-1187 | The sales loop appends each box's sale movements to what the purchases left, opening missing boxes |
| Caja.CollectMovements | main.py:1135-1187 | Both loops give each box its purchase movements followed by its sale movements |
| Caja.BoxSum | main.py:1222-1225 | A box's movements add to what its sales brought in less what its purchases took out |
| Caja.NewestFirstPreorder | main.py:1194 | Newest-first is a total preorder, so the sort is well defined |
| Caja.ByTransactionPreorder | main.py:1197 | Ordering by transaction key is a total preorder |
| Caja.OrderMovementsFacts | main.py:1192-1197 | The two sorts keep the same movements (a permutation), order them by transaction and, within one transaction, newest first, and keep their sum |
| Caja.MissingIdsLast | main.py:1196-1197 | When every transaction id sorts below U+FFFF, the movements with no id come last |
| Caja.ColorIndex | main.py:23-26 | The colour index is below the number of colours |
| Caja.ColorFor | main.py:1200-1213 | A movement gets a colour among eight exactly when it has a transaction id |
| Caja.ColorMovements | main.py:1200-1213 | The colouring loop colours each movement of a statement, one for one |
| Caja.ColoringFacts | main.py:1200-1213 | Colouring changes no amount, date or transaction; movements of the same transaction get the same colour; the sum is unchanged |
| Caja.StatementFacts | main.py:1192-1213 | A box's shown statement is a permutation of its movements, as long, with the same sum |
| Caja.ArrangeStatements | main.py:1192-1213 | Every box's statement is sorted and coloured, and no box is added or lost |
| Caja.BoxTotals | main.py:1222-1225 | Each box's total is the rounded sum of its statement |
| Caja.ArrangedBalances | main.py:1192-1225 | Sorting and colouring leave every box's balance as before, so totals taken after them are the raw ledger's |
| Caja.ResumenCaja | main.py:1099-1225 | `resumen_caja` returns, for the period selected and optional transaction and box filters, each box's sorted, coloured statement and its rounded balance |
| Margins.FiguresOf | main.py:382-411 | One entry per partner, in order, each the partner's period sales, purchases and gain |
| Margins.CollectFigures | main.py:414-428 | The loop over the joined rows gives exactly those entries |
| Margins.GainsByKey | main.py:382-428 | The partners' gains add to their keyed sales less their keyed purchases |
| Margins.GainsAddUp | main.py:382-428 | With distinct ids and every row of the period booked to a partner, the gains add to net sales less net purchases |
| Margins.OthersMargin | main.py:441-448 | The inner loop's others-margin is the unrounded sum of the shares owed on every partner with another id |
| Margins.SocioOthersSplit | main.py:441-448 | A "Socio" partner's others-margin is the partner rate's pool less what comes from its own id |
| Margins.EmpresaOthersSplit | main.py:441-448 | An "Empresa" partner's others-margin is the company rate's pool less what comes from its own id |
| Margins.SocioPool | main.py:436-448 | For every "Socio" partner, its own share plus what it owes on others is the same pool: the partner rate on every "Socio" partner's gain |
| Margins.EmpresaOthers | main.py:436-448 | An "Empresa" partner owes the company rate on every "Socio" partner's gain and takes no partner margin |
| Margins.OtherKindOwesNothing | main.py:436-448 | A partner of any other kind takes and owes no partner margins |
| Margins.RestFacts | main.py:454-461 | Outside "Legion" the box balance's sign does not matter, the house keeps it, and with a non-negative balance every partner's rest is computed alike |
| Margins.SocioRowFacts | main.py:436-461 | A "Socio" partner's total margins are its seller margin plus the pool, and they and its rest do not depend on the company rate |
| Margins.RowBox | main.py:450-461 | A row shows the balance of the partner's own box, or 0 when no box carries its name, and its rest and total margins follow from it |
| Margins.BuildRows | main.py:431-476 | One row per partner, in order |
| Margins.RowOf | main.py:432-476 | The body of the rows loop builds that partner's line |
| Margins.PeriodBalanceOfBox | main.py:350-378 | Each box balance is the rounded cash the box took in over the period less what it paid out |
| Margins.PeriodBalancesAsLedger | main.py:350-378 | Those balances are the ones the cash ledger shows for the same year and month with no filters |
| Margins.RatesFacts | main.py:328-330 | Each rate is its stored value or its default (0.53, 0.20, 0.09), and only those three keys can be added |
| Margins.ReadOrFacts | main.py:328-330 | A read with a default returns the stored value or the default, and then stores it |
| Margins.SummarySpec | main.py:431-476 | The summary has one line per partner |
| Margins.BuildResumenSocio | main.py:305-478 | `build_resumen_socio` reads the rates, leaving the table `RatesSpec` describes, and returns the summary for the period label |
| Dashboard.Index | main.py:662-835 | `index` reads the two deductible percentages, leaving the table `DeductibleRates` describes, and returns the dashboard for the year and month |
| Dashboard.DeductibleRatesFacts | main.py:730-731 | The percentages are the stored ones or 1.0 and 0.5, and only their two keys can be added |
| Dashboard.PartnerGainsAddUp | main.py:776-809 | With distinct ids and every row of the period booked to a partner, the partners' gains add to the net gain shown |
| Dashboard.ViewFigures | main.py:708-809 | The net gain is net sales less net purchases of the period, and the partner figures are those of the period's rows |
| Dashboard.SameFiguresAsSummary | main.py:776-809 | The dashboard's partner figures are those the partner summary computes for the same year and month |
| Dashboard.SqlVatIsBase | main.py:714-746 | When both VAT columns are filled in on every purchase, the SQL VAT sum equals the loop's VAT sum |
| Dashboard.VatPayableBounds | main.py:738-749 | With full, non-negative VAT: 0 ≤ personal credit ≤ creditable ≤ purchase VAT, and sales VAT − purchase VAT ≤ VAT payable ≤ sales VAT |
| Dashboard.PartnersShareFacts | main.py:827-829 | The partners' share is never negative, and with full personal VAT it is the uncredited personal VAT |
| Dashboard.OwedCounts | main.py:762-773 | For every year and month, each unpaid count is the number of unpaid rows the period's filter keeps; hence never more than the period's rows, and for all periods the store's unpaid rows |
| Arca.PartnerNames | main.py:537-539 | Every partner's id has a name, and each name belongs to a partner with that id |
| Arca.BuildResumenArca | main.py:517-608 | The listing appends one row per purchase and then one per sale |
| Arca.ArcaRowsLength | main.py:540-607 | The listing has a row per purchase and per sale |
| Arca.ArcaRowsPurchases | main.py:540-573 | The first rows are the purchases' rows in store order |
| Arca.ArcaRowsSales | main.py:574-607 | After them come the sales' rows in store order |
| Arca.PurchaseRowFacts | main.py:540-573 | A purchase row has operation COMPRA, a stripped upper-case voucher type, rounded amounts, the total fallback, a split invoice and a date whose prefix is the period |
| Arca.SaleRowFacts | main.py:574-607 | The same for a sale row, with operation VENTA |
| Arca.VoucherIdempotent | main.py:541 | The normalised voucher type is unchanged by normalising again |
| Arca.PartnerNameFacts | main.py:571 | A row booked to no partner, or to an unknown one, shows an empty name; with unique ids a booked row shows its partner's name |
| Arca.FilterIsOneFilter | main.py:974-981 | The three filters in turn are one filter by the three conditions together |
| Arca.FilterIsSubsequence | main.py:976-981 | The filter keeps rows in order and adds none |
| Arca.FilterMembers | main.py:974-981 | A row is shown exactly when it matches the period prefix, is A or B unless N is included, and has the voucher type asked for when that is A, B or N |
| Arca.NWithoutIncludingN | main.py:974-981 | Asking for type N without including N shows nothing |
| Arca.BuildTotalesArca | main.py:611-658 | Accumulating by key, rounding each group and sorting gives the totals `TotalsSpec` describes |
| Arca.TotalsOnePerKey | main.py:629-658 | One line per distinct (period, operation) of the rows, in strictly ascending key order, and no others |
| Arca.TotalsLineFacts | main.py:649-656 | Each line's amounts are its group's rounded sums, and its balance is the rounded sum of the group's two VAT sums |
| Arca.TotalsConserve | main.py:629-648 | Before rounding, the lines' group sums add to the sum over all rows, column by column |
| Arca.PeriodResults | main.py:1275-1279 | The loop gives one result per period of the lines listed |
| Arca.TotalesArca | main.py:1248-1279 | `totales_arca` lists the valid lines of the period asked for, sorted, with each of their periods' results |
| Arca.TotalsViewFacts | main.py:1259-1271 | A line is listed exactly when its period is valid and is the one asked for, if any, and the list is sorted by key |
| Arca.PeriodResultsFacts | main.py:1275-1279 | The results list each period of the lines once, strictly ascending, and nothing else |
| Arca.PeriodsOfFacts | main.py:1276 | The periods are distinct, ascending, and exactly those of the lines |
| Arca.ArcaRowsOperations | main.py:554-607 | Every listing row is COMPRA or VENTA, already upper-case |
| Arca.TotalsOpsUpper | main.py:629-658 | The totals' lines carry upper-case operations when the rows do |
| Arca.PeriodSalesReconcile | main.py:1275-1279 | For a period listed, the page's sales figure is the rounded VAT of that period's sale rows |
| Arca.PeriodPurchasesReconcile | main.py:1275-1279 | Its purchases figure is the rounded VAT of its purchase rows |
| Arca.SideReconcile | main.py:1275-1279 | The page's sum over one side of a listed period is the rounded VAT of that side's rows |
| ArcaService.AllowedIsAOrB | app/services/arca.py:32 | The allowed types are exactly "A" and "B", case-sensitive, and a missing type is not allowed |
| ArcaService.NormalizeTipoFacts | app/services/arca.py:35-39 | A missing or blank type becomes missing, any other is stripped and upper-cased, and normalising twice is normalising once |
| ArcaService.YmFacts | app/services/arca.py:159-165 | A date's period is `YYYY-MM`, and a date given in ISO text has the same period |
| ArcaService.GetResumenArca | app/services/arca.py:127-156 | One row per row of the date-ordered union of both queries |
| ArcaService.UnionMembers | app/services/arca.py:81-124 | A union row is exactly a selected voucher of its own store, tagged with its operation |
| ArcaService.UnionSorted | app/services/arca.py:81-124 | The union is ordered by date |
| ArcaService.ResumenRowFacts | app/services/arca.py:96-150 | Each row comes from an A or B voucher of its store dated within the bounds, with a missing amount as zero and a present one kept |
| ArcaService.ComputeTotalesArca | app/services/arca.py:168-212 | The exact sums by key, the keys ascending, and each line with its period's balance |
| ArcaService.CollectLines | app/services/arca.py:190-206 | The first loop lists one line per key with its sums and adds each group's VAT to its period's side |
| ArcaService.FillBalances | app/services/arca.py:208-211 | The second loop gives every line its period's sales VAT less its other VAT |
| ArcaService.GetTotalesArca | app/services/arca.py:215-217 | The totals of the listing between the bounds |
| ArcaService.ComputeLineFacts | app/services/arca.py:179-211 | Each line holds its group's exact sums and its period's balance, shared by all lines of the period |
| ArcaService.ComputeOnePerKey | app/services/arca.py:179-190 | One line per distinct (period, operation), strictly ascending |
| ArcaService.ComputeConserves | app/services/arca.py:179-185 | Each amount column adds, over the lines, to its sum over the rows |
| ArcaService.MonthBalance | tests/test_arca_filter.py:6-18 | Two sales and a purchase of one month: the month's balance is the sales' VAT less the purchase's |
| ArcaService.JulyBalance | tests/test_arca_filter.py:6-18 | For the figures of the test (21 + 21 − 10), the July 2025 balance is 32 |
| Import.ToBoolStrip | main.py:1662-1664 | The yes/no reading ignores surrounding white space |
| Import.ToBoolLower | main.py:1662-1664 | It ignores letter case |
| Import.ToBoolAccented | main.py:1662-1664 | "Sí" reads as yes |
| Import.ToBoolNo | main.py:1662-1664 | "no" reads as no |
| Import.ToPct | main.py:1666-1679 | The result is the default or a fraction in [0, 1] |
| Import.TextPct | main.py:1669-1679 | For a text cell likewise |
| Import.ToPctDefaults | main.py:1666-1679 | An empty or NaN cell gives the default; a number cell is read as a fraction or in hundreds; a text cell gives the default exactly when its cleaned form, without one trailing `%`, does not parse as a decimal |
| Import.DigitlessTextDefault | main.py:1678-1679 | Text with no digit at all ("abc", "-", "%") gives the default |
| Import.ToPctCleanText | main.py:1669 | Text with nothing to strip and no decimal comma is read as it stands |
| Import.PercentTextRoundTrip | main.py:1669-1672 | Digits followed by `%` read as that number over a hundred, clamped |
| Import.PlainTextRoundTrip | main.py:1673-1677 | Plain digits read as a fraction when 0 or 1, and as hundreds above |
| Import.NumberCellFacts | main.py:1666-1679 | A number cell up to 1 is a fraction, up to 100 is hundreds, and anything outside is clamped to 0 or 1 |
| Import.ImportedPctIsEffective | main.py:1711-1716 | The imported percentage is the one the dashboard would choose for the raw cell, and once stored the dashboard uses it unchanged |
| Import.Before | main.py:1901 | The text before the first `c` is a prefix and holds no `c`, and what follows it is that `c` |
| Import.ExportUrlShape | main.py:1904-1907 | Every export address is stripped and holds the Google host and the export mark |
| Import.NormalizeRefusals | main.py:1894-1903 | It is refused as blank exactly when nothing is left after stripping, and for want of an id exactly when it is a Google address that does not export and has no `/d/` |
| Import.NormalizeBareId | main.py:1905-1907 | An address that is not a Google one is taken whole as the id |
| Import.NormalizeSheetId | main.py:1897-1904 | A Google address that does not export but has a `/d/` gives the export address of the id: the text right after its first `/d/` up to the next `/`, which holds no `/` |
| Import.NormalizeExports | main.py:1894-1907 | Whatever is accepted is a stripped Google address that exports |
| Import.NormalizeIdempotent | main.py:1894-1907 | Normalising an accepted address again gives it back |
| Import.KeptAddress | main.py:1897-1899 | A Google address that already exports is kept as it is |
| Import.ExportedId | main.py:1900-1907 | Any other accepted address is the export address of some id |
| Import.Accepted | main.py:1894-1899 | A stripped Google export address is accepted unchanged |
| Import.BackfilledFacts | main.py:1789-1793 | A margin the partner had is kept; a missing one gets the rate of its kind; nothing else changes; filling again changes nothing |
| Import.BackfillMargins | main.py:1789-1795 | The loop fills in every partner in place, and `changed` holds exactly when some partner lacked a margin |
| Import.BackfillFromStore | main.py:1786-1795 | Reads both rates (creating missing ones with 0.53 and 0.09), then backfills; `changed` as above |
| Legacy.LegacyBuildResumenArca | app.py:403-453 | The legacy listing appends the purchases, then the personal purchases, then the sales |
| Legacy.LegacyRowsLength | app.py:403-453 | One row per purchase, personal purchase and sale |
| Legacy.LegacyRowsLayout | app.py:403-453 | Three blocks in that order, each row the row of its record |
| Legacy.PersonalRowFacts | app.py:421-436 | A personal purchase is a purchase row of its period with its rounded VAT, no net amount and no total |
| Legacy.LegacySaleRowFacts | app.py:437-452 | A legacy sale row is always a `Factura` of its period with the stored total rounded, without fallback |
| Legacy.LegacyPurchaseVsCurrent | app.py:405-420 | A legacy purchase row agrees with the current one on period, amounts and texts; on the voucher when already normalised; on the total when a non-zero one is stored |
| Legacy.LegacySaleVsCurrent | app.py:437-452 | The same for sales, except that the voucher type never agrees |
| Legacy.UpperNotFactura | app.py:441 | An upper-cased text is never `Factura` |
| Legacy.LegacyResumenViewFacts | app.py:455-462 | The legacy view keeps exactly the rows whose date starts with the period, in order |
| Legacy.LegacyTotalsViewFacts | app.py:511-518 | The legacy totals view keeps exactly the lines of that period, in order |
| Legacy.LegacyBuildTotalesArca | app.py:489-509 | The legacy totals are the same accumulation, rounding and sort over the legacy listing |
| Legacy.PersonalRowsNoAmounts | app.py:421-436 | Personal rows bring no net and no total |
| Legacy.LegacyTotalsNetIgnoresPersonal | app.py:489-509 | Before rounding, the lines' net amounts and totals add to those of the purchases and sales alone |
| Legacy.LegacyRatesAsCurrent | app.py:144-146 | Reading the rates with `get_param` gives the same rates and table as the current reads |
| Legacy.LegacySummarySpec | app.py:168-193 | One legacy line per partner |
| Legacy.LegacyRowOf | app.py:169-193 | The body of the legacy rows loop builds that partner's line |
| Legacy.LegacyBuildRows | app.py:168-193 | One line per partner, in order |
| Legacy.LegacyBuildResumenSocio | app.py:143-194 | The legacy summary reads the rates as `LegacyRatesSpec` describes and returns the lines for exactly the period |
| Legacy.LegacyRowAsCurrent | app.py:168-193 | Each legacy line is the current line of the same partner without its box columns |
| Legacy.LegacySummaryAsCurrent | app.py:143-194 | For a month label the legacy summary is the current one without its box columns, line by line |
| Legacy.LegacyKindTotals | app.py:168-193 | A "Socio" partner's total is its seller margin plus the pool whatever the company rate; an "Empresa" owes the company rate on the pool and takes no partner margin |
| Legacy.LegacyIndex | app.py:197-253 | The legacy dashboard is the period's sums, the 50/50 personal split and the partner figures |
| Legacy.LegacySplitFacts | app.py:216-224 | The two halves of the personal VAT are equal and add to it, the company's is creditable, and VAT payable is sales VAT less purchase VAT less half the personal VAT |
| Legacy.LegacyVatPayableBound | app.py:216-224 | With non-negative personal VAT the company's credit is not negative and VAT payable never exceeds sales VAT less purchase VAT |
| Legacy.LegacyIndexAsCurrent | app.py:197-253 | For an ordinary year and month the legacy dashboard shows the current dashboard's sales, purchases, purchase VAT, net gain, unpaid counts and partner figures |
| Legacy.LegacyGainsAddUp | app.py:229-253 | With every row booked to a partner and distinct ids, the gains add to the net gain shown |
| Legacy.LegacyBackfill | app.py:733-739 | The legacy partner list reads both rates with `get_param`, fills in each missing margin, and `changed` holds exactly when one was missing |
| Legacy.NewPartnerAsBackfill | app.py:718-721 | A partner created without a margin gets the margin the backfill would give it, and the backfill leaves a created partner alone |
| Totals.Accumulate | main.py:629-648 | The accumulating loop has one entry per key, created on first sight in first-occurrence order, holding its rows' sums |
| Totals.SortedKeysFacts | main.py:657 | The sorted keys are the rows' keys, each once, strictly ascending |
| Sorting.SortLex | main.py:1192-1197 | Sorting by one key and then stably by another orders by the second and, among ties, by the first |
| Sorting.SortSorted | main.py:657 | The stable sort orders its output |
| Sorting.SortSum | main.py:1192-1197 | Sorting does not change a sum |
| Common.Round2Idempotent | main.py:649-656 | Rounding to the cent twice is rounding once |

## Left out

- HTTP routes, request-argument parsing, templates, menus, flash messages and redirects. The model takes each view's arguments as parameters.
- The database session, commits and exceptions (`try`/`except` paths). The tables are sequences.
- Partner lists are taken in the order given; `order_by(Socio.nombre)` is not modelled.
- Floating point and `Decimal`. Money is exact `real`, and `round(x, 2)` is half-even on the exact value, so float representation error is not modelled.
- SQL `ORDER BY fecha` ties in the service union. Purchases are put before sales of the same date; the database may order them otherwise.
- md5 itself. The digest is a parameter of `ColorIndex`.
- The colour map of `resumen_caja` is modelled on values. The dictionary shared between boxes, and its aliasing, are not.
- `strftime` and `isoformat` for years below 1000 or above 9999. Dates have years 1 to 9999, printed with four digits.
- `str.strip`, `upper`, `lower` and `isdigit` cover ASCII (and Latin-1 capitals for `lower`), not all of Unicode.
- `LIKE` is modelled as a prefix match on the year.
- Invoice numbers that are not text are not modelled: `str(nro_raw)` of a number is left out, and an invoice is text or missing.
- Import.ToPct: `float()` is modelled on plain decimal notation only (sign, digits, one point). Exponents, `inf`, `nan` and underscores are not, so such text is read as not parsing.
- Import.NumberCellFacts: a number cell is read exactly; the digits `str(float)` prints are not modelled.
- Legacy.LegacyPurchaseVsCurrent: the legacy rows have no split invoice and no partner name; the model leaves those columns empty, so they are not compared.
- Legacy.NewPartnerAsBackfill: takes the entered margin as parsed (`Option<real>`); the form's text parsing is not modelled.
- Arca.PartnerNames: it states that every id has some partner's name; which duplicate wins is not stated.
- Caja.ColorIndex: it states only the range of the index, because the digest is a parameter.
- The dead `adeudado` query at main.py:750-759, whose result is overwritten before use.
- `dashboard_export`, the CSV/XLSX exports, the Google Sheets download and the spreadsheet import's row mapping (only its helpers are modelled). The `ym` lists of the period drop-downs and `format_ars` are left out too.
- `app/models/compra.py`, `routes.py` and the maintenance scripts are not part of this model.
- Clocks (`date.today()`) are left out; the year and month are parameters.
