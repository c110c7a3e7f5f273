# Haircheck report: a Dafny model

This project models the report computation of the Haircheck script
(`process_haircheck_data`). The function takes the rows of an advertising export.
Each row has a day, a campaign name, the amount spent, link clicks, leads and
messaging conversations started. It produces one report row per day:

1. **Classify.** Each campaign name is looked up, by exact string equality, in a
   list of Website campaigns and then in a list of Instagram&Facebook campaigns.
   A name on neither list is `Other`.
2. **Group.** Rows are grouped by (Day, Category) and the four metrics are summed.
3. **Pivot.** The groups are spread to one row per day, ascending by `Day`.
   `Instagram&Facebook_Total_Impressions` is computed there. It adds Website
   messaging conversations, Instagram&Facebook messaging conversations and
   Instagram&Facebook leads, and counts an empty cell as 0.
4. **Project.** Each row is cut to ten fixed columns, and every cell the pivot
   left empty reads `'N/A'`.

Files, one module each:

- `wrappers.dfy` (`Wrappers`): `Option` and `Result`.
- `day_order.dfy` (`DayOrder`): `Day` is the raw text of the `Day` column. The
  module holds Python's string order on it (`Less`), proved to be a strict total
  order, and the sorted insertion that builds the pivot's index.
- `campaigns.dfy` (`Campaigns`): the three categories, the two name lists of the
  script (`HaircheckLists`) and `Classify`.
- `aggregation.dfy` (`Aggregation`): records and metrics, the group-by-and-sum
  (`Grouped`), and a reference definition of each group. `Members` is the
  records of a group in input order, and `Sum` adds their metrics field by field.
- `report.dfy` (`Report`): the pivot index (`Days`), the ten-column `Row`, and
  `BuildReport`. `HaircheckReport` is the report run with the script's own lists.
  It has no lemmas of its own: every property is proved for `BuildReport` over
  any lists, so each one holds for `HaircheckReport` as a special case.
  A base metric cell is a `Cell` (`NA` or `Num(n)`). The total is a `Cell` too,
  and it is proved never to be `NA`. The `Row` datatype lists the ten columns in
  sheet order: `Day`, the four Instagram&Facebook metrics, Website messaging,
  the total, then Website amount, clicks and leads.

Modelling decisions:

- `Amount spent (USD)` is an integer number of cents. The other metrics are
  integers.
- `Day` is never parsed as a date. Rows are ordered the way pandas orders the
  raw text: Python's code-point lexicographic order, with a proper prefix first.
- The campaign lists are a parameter (`CampaignLists`) of `Classify` and
  `BuildReport`, so the Website-first priority can be stated for any lists.
  `HaircheckLists` holds the script's literal names, and
  `Campaigns.HaircheckListsDisjoint` shows that no name is on both of them.
- The script aborts when a column it reads was never created by the pivot.
  The pivot creates a category's columns only if some record has that category.
  The first lookup is `Website_Messaging conversations started`, then
  `Instagram&Facebook_Messaging conversations started`. `BuildReport` returns
  `Err(MissingColumn(name))` for the first missing one. This includes the empty
  input.
- The script does not compute the cost-per-click or cost-per-lead ratios, the
  missing-campaign notes or the comments column. It does not treat a name on both
  lists as an error: it takes the first match. The model follows the script.

## Model

| member | source | states |
|---|---|---|
| `Campaigns.Classify` | pythonscript.py:13-28 | Every name gets exactly one category. It is `Website` iff the name is on the Website list. It is `Instagram&Facebook` iff the name is on that list and not on the Website list. It is `Other` iff the name is on neither list. |
| `Campaigns.HaircheckListsDisjoint` | pythonscript.py:13-24 | No campaign name is on both of the script's lists. |
| `Aggregation.GroupedIsSumByKey` | pythonscript.py:31-36 | A (Day, Category) group exists iff some record has that key. Its four metrics equal the field-wise sums over exactly those records. |
| `Aggregation.LookupIsGroupSum` | pythonscript.py:39 | A pivot cell is empty iff no record has that day and category. Otherwise it holds that group's sums. |
| `Aggregation.HasCategoryIffClassified` | pythonscript.py:39-40 | The pivot has columns for a category iff some input record is classified into it. |
| `Aggregation.MembersCount` | pythonscript.py:27-36 | Every record is in exactly one (Day, Category) group: a group holds every copy of a record that carries its key, and no copy of any other record. |
| `Aggregation.DayIsPartitionedByCategory` | pythonscript.py:27-36 | No record is dropped or counted twice. As a multiset, a day's records are exactly the union of its Website, Instagram&Facebook and Other groups, so their numbers add up too. |
| `Aggregation.DayTotalIsSumOfCategories` | pythonscript.py:31-36 | For each metric, a day's unfiltered total equals the sum of its three category sums. |
| `Aggregation.SumPermutation` | pythonscript.py:32-35 | A sum of metrics does not depend on the order of the rows. |
| `Aggregation.GroupedPermutation` | pythonscript.py:31-36 | Two inputs that are permutations of each other give the same groups and sums. |
| `Aggregation.GroupedIgnoresOther` | pythonscript.py:27-36 | Changing only the metrics of `Other` rows leaves the set of groups the same. It also leaves the sums of every non-`Other` group the same. |
| `Report.Days` | pythonscript.py:39-41 | The pivot index is strictly ascending in the `Day` order. It holds a day iff some input record has that day. |
| `Report.ReportFailsExactlyWhenCategoryMissing` | pythonscript.py:44-48 | The run fails iff the input has no Website record or no Instagram&Facebook record. The missing Website column is reported first. |
| `Report.ReportRowsAreDistinctDaysAscending` | pythonscript.py:31-52 | On success there is one row per distinct input day, with no day repeated. Rows are strictly ascending by `Day`. |
| `Report.ReportBaseCell` | pythonscript.py:51-65 | Each of the eight base metric cells is `'N/A'` iff its day has no record of its category. Otherwise it holds the sum over those records, even when that sum is 0. |
| `Report.ReportTotalImpressions` | pythonscript.py:44-58 | The total is Website messaging + Instagram&Facebook messaging + Instagram&Facebook leads, with absent groups counted as 0. It is never `'N/A'`. With non-negative metrics it is at least each of its three parts. |
| `Report.ReportIgnoresOther` | pythonscript.py:51-62 | Changing only the metrics of `Other` rows leaves the whole result unchanged, failure included. |
| `Report.ReportIgnoresRowOrder` | pythonscript.py:31-41 | Reordering the input rows leaves the whole result unchanged. |
| `DayOrder.LessTotal` | pythonscript.py:31 | Any two different `Day` values are ordered one way or the other. This is what lets the grouping sort the days. |
| `DayOrder.StrictlySortedUnique` | pythonscript.py:39-41 | There is only one strictly ascending arrangement of a set of days, so the pivot's row order is determined by the input's days. |

## Left out

- Reading the CSV with pandas and dropping `Reporting starts`/`Reporting ends`
  (pythonscript.py:7-10). This is file I/O. The model starts from parsed records.
- Writing the Excel sheet, the yellow and blue cell fills and the column-width
  sizing (pythonscript.py:67-94). These are presentation done through openpyxl.
- The `__main__` block (pythonscript.py:96-102). It only builds file paths and
  prints a message.
- Floating-point amounts. `Amount spent (USD)` is an exact integer of cents, so
  rounding in float sums is not modelled.
- Blank cells in the export. pandas drops rows whose `Day` is blank before
  grouping. It sums a blank metric cell as 0. It classifies a blank campaign name
  as `Other`. Records here always carry a day, a name and four integers, so a
  blank metric must be entered as 0.
- Numeric `Day` values. `Day` is assumed to be read as text, as it is for
  dated exports such as `2024-09-22`. If every value of the column looked like
  a number, pandas would read it as integers and sort the days numerically,
  and the string order of the model would not apply.
- How numbers are rendered in the sheet. After the pivot, a column with an
  empty cell becomes floating point in pandas, so its sums show as `5.0`. The
  model keeps them as integers.
- The `Other_…` pivot columns. The script builds them and never reads them; the
  model never builds them.
