# presenze- dashboard: a Dafny model of its filter-and-aggregate core

The repository is a Dash dashboard over one MySQL table, `mi_tabla`, in two nearly identical
scripts, `2.py` and `analisis_mysql.py`. At start-up each script loads the table. It
lower-cases and trims the column labels, then stops with a `ValueError` if the data did not
arrive or if any of `analisis`, `total_po`, `ciudad`, `aliado` and `región` is missing.

After that, every change to the three dropdowns (city, partner, region) runs the callback
`actualizar_dashboard`. The callback:

- filters the table by region, then city, then partner; an empty or unset dropdown does not filter;
- computes the percentage of analyses (`porcentaje`), the target population (`publico_objetivo`,
  the sum of `total_po`) and the loads in Presenze (`cargas_presenze`, the sum of `analisis`);
- groups `analisis` by city (bar chart) and by partner (line chart);
- rebuilds the dropdown options. City and partner options come from the filtered rows. Region
  options always come from the whole table.

The model is pure, as the source is. The callback rebinds `df_filtrado` to new frames and never
updates anything in place. Each step is a function on sequences of records:

- `Records`: the record (`Row`), the three categorical columns (`Dimension`) and column sums.
- `Filters`: the filter chain (`Filtered`), proved equal to a one-pass reference filter.
- `Grouping`: `groupby(...)['analisis'].sum()` (`SumBy`), an ascending association list.
- `Distinct`: `Series.unique()` (`Unique`).
- `Dashboard`: the percentage, the option lists and the whole callback (`ActualizarDashboard`).
- `Loader`: `cargar_datos` and the required-column check.
- `Text`: Python's `str.lower`, `str.strip` and the `<` order on `str`, which pandas uses to sort
  group keys.
- `WorkedExample`: a two-row example table (one northern row, one southern row) worked through the model.

The two scripts hold the same logic line for line. Lines 100-106 and 132-134 of `2.py` are
lines 104-110 and 124-126 of `analisis_mysql.py`. Their filter lines match one for one, and so do
their option lines. The percentage and the two sums are `2.py:108-110` and
`analisis_mysql.py:112-114`. The city and partner group-bys are `2.py:112,122` and
`analisis_mysql.py:116,120`. The start-up code (lines 15-31) is the same in both. So one model
serves both files, and the table below cites whichever file shows the property best.

The counts `analisis` and `total_po` are integers. The percentage is an exact `real`, stated as
`porcentaje * sum(total_po) == 100 * sum(analisis)`. The base table cannot change under
filtering, because every operation here is a function of values. This is the model's
counterpart of the source's `df.copy()` and rebinding.

## Model

| member | source | states |
|---|---|---|
| `Filters.Filtered` | 2.py:100-106 | The filtered rows are an order-preserving subsequence of the base rows. A row's multiplicity is its multiplicity in the base when it passes all three non-empty selections, and 0 otherwise. A row is shown iff it is in the base and matches. With no active selection the base comes back unchanged. |
| `Filters.ChainIsSelect` | analisis_mysql.py:104-110 | Filtering by region, then city, then partner gives exactly the rows a single pass keeps when it tests all three conditions at once. |
| `Filters.IsIn` | 2.py:102 | `df[df[col].isin(values)]` is no longer than the rows, and a row is in it iff it is among the rows and its value in the column is one of `values`. |
| `Filters.Narrow` | 2.py:101-106 | One `if sel:` step: an empty or unset selection keeps the rows unchanged, and a row is kept iff it is among the rows and the selection admits its value. |
| `Filters.Select` | analisis_mysql.py:105-110 | The one-pass reference filter is an order-preserving subsequence that keeps every copy of each matching row and nothing else. |
| `Dashboard.Porcentaje` | 2.py:108 | On no rows the percentage is exactly 0. Otherwise `porcentaje * sum(total_po) == 100 * sum(analisis)`. |
| `Dashboard.ActualizarDashboard` | 2.py:99-136 | `publico_objetivo` and `cargas_presenze` are the sums of `total_po` and `analisis` over the filtered rows. The percentage is 0 on an empty result and the exact ratio otherwise. Each chart has ascending keys, exactly the cities or partners present after filtering, the per-key sum of `analisis` for each key, and a total equal to `cargas_presenze`. City and partner options are exactly `unique()` of the filtered column: duplicate-free, holding exactly the values of the filtered rows, in first-appearance order. Region options are `unique()` of the whole table's regions, likewise. Every option's label equals its value. |
| `Dashboard.EmptyResultShowsZero` | analisis_mysql.py:112-126 | When no row survives, the percentage and both sums are 0, both charts are empty and the city and partner dropdowns offer nothing. |
| `Dashboard.RegionOptionsIgnoreSelections` | analisis_mysql.py:126 | The region options are the same for every combination of selections. |
| `Dashboard.NoSelectionShowsWholeTable` | analisis_mysql.py:104-116 | With all three selections empty or unset, the sums and the chart keys are those of the whole table. |
| `Dashboard.OptionsOf` | 2.py:132-134 | A dropdown's option values are `unique()` of the column: no repeated value, exactly the values of the column, listed in the order of their first appearance in the column. Each option's label equals its value. |
| `Dashboard.Options` | 2.py:132 | One `{'label': c, 'value': c}` option per value, in the order of the values. |
| `Records.Sum` | 2.py:109-110 | `Series.sum()` is 0 on no rows and never negative when no row holds a negative count. |
| `Records.SumAppend` | analisis_mysql.py:113-114 | The sum over two tables put one after the other is the sum of their sums. |
| `Grouping.SumBy` | 2.py:112 | The grouped frame has strictly ascending keys, so each key appears once. Its keys are exactly those in the rows. The amount for any key is the sum of `analisis` over that key's rows, 0 when the key is absent. The amounts add up to the sum of `analisis`. |
| `Grouping.SumByEntries` | 2.py:122 | Every entry of the grouped frame carries the sum of `analisis` over the rows with its key. |
| `Grouping.Add` | analisis_mysql.py:116 | Adding a row's amount to an ascending grouping keeps it ascending, adds the key, raises the total by the amount, and changes only that key's amount. |
| `Distinct.Unique` | 2.py:133 | `unique()` yields no duplicates and the same values as the column. Values appear in the order of their first occurrence in the column. |
| `Records.Column` | analisis_mysql.py:124 | The column has one value per row, and its values are exactly the keys present in the rows. |
| `Text.PrecedesIrreflexive` | 2.py:112 | No key sorts before itself. |
| `Text.PrecedesTransitive` | 2.py:112 | The key order of `groupby` is transitive. |
| `Text.PrecedesTotal` | 2.py:112 | Any two different keys are ordered one way or the other, so sorting is well defined. |
| `Text.PrecedesAsymmetric` | analisis_mysql.py:116 | Two keys are never each before the other. |
| `Text.LowerChar` | 2.py:19 | A lower-cased character is never a capital. A capital moves to its small letter and any other character is unchanged. Whitespace stays whitespace. |
| `Text.Lower` | 2.py:19 | `str.lower()` keeps the length and lower-cases each character. |
| `Text.LowerIsLower` | 2.py:19 | A lower-cased string has no capitals, and lower-casing it again changes nothing. |
| `Text.Strip` | 2.py:19 | `str.strip()` is no longer than its input and neither starts nor ends with whitespace. |
| `Text.StripIsTrimmedSlice` | 2.py:19 | `str.strip()` returns the slice left after cutting off an all-whitespace head and tail. The result neither starts nor ends with whitespace. |
| `Text.StripIdempotent` | analisis_mysql.py:19 | Stripping twice is stripping once. |
| `Text.StripPadding` | analisis_mysql.py:19 | Whitespace on either side of a word is removed, and the word is kept whole. |
| `Text.StripKeepsLower` | 2.py:19 | Stripping a lower-case label keeps it lower-case. |
| `Loader.NormalizeColumn` | 2.py:19 | A normalised label has no capital and no surrounding whitespace. |
| `Loader.NormalizeColumnIdempotent` | analisis_mysql.py:19 | Normalising a label twice is normalising it once. |
| `Loader.NormalizeColumns` | analisis_mysql.py:19 | The label list keeps its length and normalises each label. |
| `Loader.CargarDatos` | 2.py:15-23 | `cargar_datos` returns None exactly when the query failed. Otherwise the records pass through and the labels are normalised. |
| `Loader.HasRequiredColumns` | 2.py:29-30 | `columnas_necesarias.issubset(set(df.columns))` holds iff every required name is one of the labels. |
| `Loader.Startup` | 2.py:25-31 | A failed load raises the no-data error. A load succeeds exactly when all five required names are among the normalised labels, and then yields the normalised table. Otherwise it raises the missing-columns error carrying the normalised labels. |
| `Loader.RegionHeadingNormalizes` | analisis_mysql.py:29 | A padded, upper-case `REGIÓN` heading normalises to the required `región`. |
| `WorkedExample.UnfilteredExample` | 2.py:108-112 | On the two-row example with no filter: totals 150 and 15, a percentage of 10, bars A:10 then B:5. |
| `WorkedExample.NorthExample` | analisis_mysql.py:105-112 | Selecting region North keeps only the northern row, with a percentage of 10. |
| `WorkedExample.NorthCityOptionsExample` | analisis_mysql.py:124 | With only the northern row left, the city dropdown offers just A. |
| `WorkedExample.RegionOptionsExample` | 2.py:134 | The region dropdown offers North and South in table order. |

## Left out

- The MySQL connection and `read_sql_query` (2.py:16-18) are I/O. The query's outcome is the `query` parameter of `Loader.CargarDatos`: `None` when it raised, else the table. The printed error message (2.py:22) is left out.
- The Dash layout, the callback registration and `app.run` are user interface. Only the callback's computation is modelled.
- The Plotly figures and their styling (2.py:113-130, analisis_mysql.py:117-122) are left out. The model returns the grouped frames they plot (`barras`, `lineas`).
- The `f"{porcentaje:.2f}%"` formatting and float division (2.py:136) are left out. The percentage is an exact `real`.
- The module-level `df['porcentaje']` column (2.py:33) is never read by the callback, so it is left out.
- Dashboard.Porcentaje: requires a non-zero `total_po` sum when rows survive. The callback guards only the empty result. With a zero sum, pandas yields `inf` or `nan` rather than a number, and the model does not cover that case.
- Dashboard.ActualizarDashboard: carries the same non-zero `total_po` requirement, for the same reason.
- pandas edge behaviour is not modelled. This covers NaN keys that `groupby` drops, `None` or NaN among `unique()` values, dtype coercion, non-string column labels, and 64-bit overflow of the sums. Integers are unbounded.
- Text.LowerChar: lower-cases only the capitals of ASCII and of the Latin-1 supplement. Python's `str.lower` covers all of Unicode, and for a few characters its result is longer than its input.
- A record is modelled as the five columns the callback reads. The other columns of `mi_tabla` are not modelled.
- `Loader.Startup` checks the labels, but the model's records always carry the five fields.
