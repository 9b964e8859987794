# multiindex — a Dafny model of its two table transformations

The repository holds two small pandas scripts. This project models the pure
logic of each as immutable Dafny data and pure functions, and proves what the
scripts promise.

- **Hierarchical column reshaping** (`macrocolunas.py`, module `MacroColumns`).
  A flat table has a row index and named columns. An ordered relation of
  `(theme, column name)` pairs becomes the table's two-level column index.
  A source column that exists is carried over unchanged. A missing one becomes
  a column of missing-value markers, one per row, and a warning naming it.
  Cells are `Option<V>`, with `None` standing for pandas' `NA`. The warnings
  are returned as the sequence of missing names instead of being printed.
  `verify_columns` is modelled literally as a map keyed by pair and built in
  relation order. So the case where identical repeated pairs share one key is
  modelled too, and it is shown to be harmless: a key's column depends only on
  the column name.
- **Column-format planning** (`format_types.py`, module `ExcelFormat`). This is
  the formatting loop of `apply_format_and_export`. A fixed catalog maps six
  logical format names to spreadsheet number-format codes. Each table column,
  taken in table order, whose name is in the assignment gets its code applied to
  sheet column `i + 1`, because the row index occupies sheet column 0. The result
  is the list of format applications (`ColumnFormat(first, last, code)`), or the
  `KeyError` the catalog lookup raises for an unknown logical name.

`wrappers.dfy` holds the shared `Option` and `Result` types.

Both transformations are pure functions of immutable values. The source table
and the assignment therefore cannot be modified, and re-running either
transformation on the same inputs gives the same result.

The script prints its warning as a Portuguese sentence; the model keeps only
the column name that sentence carries.

The script's reshaping fails on an empty relation, because
`MultiIndex.from_tuples` cannot infer a number of levels from an empty list.
`CreateMultiIndex` and `CreateMultiIndexDataFrame` model that as written;
`IndexFromTuples` and `Reshape` are the total versions, where an empty
relation gives a table with no columns (see "## Findings").

## Model

| member | source | states |
|---|---|---|
| MacroColumns.MissingColumn | macrocolunas.py:29 | the placeholder has exactly one cell per row, and every cell is the missing-value marker |
| MacroColumns.Bind | macrocolunas.py:23-29 | one relation entry is bound to the source column exactly when its name is a column of the table, with the source values unchanged; otherwise to a placeholder; either way one cell per row of a well-formed table |
| MacroColumns.VerifyColumns | macrocolunas.py:17-31 | the dictionary has a key for a pair exactly when the pair is in the relation, so every entry is bound and nothing extra appears; each key's binding is that of its column name (source column or placeholder of the row count); warnings only ever name absent columns and number at most one per entry |
| MacroColumns.WarningsInRelationOrder | macrocolunas.py:20-27 | the warnings are the absent entries' column names, in relation order (front-to-back reference definition) |
| MacroColumns.WarningCount | macrocolunas.py:23-27 | a name is warned about once per relation entry naming it when its column is absent, and never when it is present |
| MacroColumns.IndexFromTuples | macrocolunas.py:43 | the two-level index, read back as pairs with `MultiIndex.Tuples`, is the relation itself, order and duplicates included; total, the empty relation giving the empty index |
| MacroColumns.IndexFromTuplesOfTuples | macrocolunas.py:43 | the other direction of that round trip: every well-formed two-level index, the empty one included, is rebuilt from its own pairs |
| MacroColumns.CreateMultiIndex | macrocolunas.py:33-43 | as written: fails with the level-inference fault exactly when the relation is empty; otherwise the index read back as pairs is the relation itself, order and duplicates included |
| MacroColumns.CreateMultiIndexOfTuples | macrocolunas.py:43 | the other direction through the script's builder: a well-formed index with at least one entry is rebuilt from its own pairs |
| MacroColumns.BoundColumns | macrocolunas.py:57-59 | looking each relation position up in the pair-keyed dictionary gives one column per entry: the source column if present, else an all-missing column of the row count |
| MacroColumns.Reshape | macrocolunas.py:45-60 | the total reshaping keeps the source row index; its column index is exactly the relation, so the width equals the relation length; present names carry the source column unchanged; absent names give all-missing columns of the row length; a name listed twice is duplicated, not split; a well-formed source gives a well-formed result; warnings in relation order, one per absent entry |
| MacroColumns.CreateMultiIndexDataFrame | macrocolunas.py:45-60 | as written: fails with the level-inference fault exactly when the relation is empty, and otherwise returns the total reshaping of the same table and relation |
| MacroColumns.EmptyRelationFails | macrocolunas.py:43 | on the empty relation the script's reshaping fails, while the total reshaping keeps the row index with no columns and no warnings |
| MacroColumns.ExampleReshape | macrocolunas.py:62-74 | the demonstration succeeds with four columns under the four pairs; Coluna1..Coluna3 carry 1..10, 11..20 and 21..30; Coluna4 is all-missing; the only warning names Coluna4 |
| ExcelFormat.FormatCode | format_types.py:3-10 | the catalog resolves exactly the six names monetary, percentage, date, integer, float and text, to `$#,##0.00`, `0.00%`, `mm/dd/yyyy`, `0`, `0.00` and `@`; any other name fails with a lookup error carrying that name |
| ExcelFormat.PlanFormats | format_types.py:29-36 | the formatting loop completes exactly when every assigned logical name of a table column is in the catalog; otherwise it fails with the logical name of the first such column in table order |
| ExcelFormat.PlanPlacement | format_types.py:30-36 | every applied format targets sheet column `i + 1` of a table column `i` present in the assignment, with first and last column equal, and uses the catalog code of that column's logical name; targets strictly increase, so the plan follows table order and sets each column at most once |
| ExcelFormat.PlanCoverage | format_types.py:30-31 | every table column present in the assignment receives a format |
| ExcelFormat.PlanIgnoresOtherKeys | format_types.py:30-31 | two assignments that agree on the table's columns give the same plan, so keys naming no column are ignored, even when their logical name is unknown |
| ExcelFormat.ExampleSalesReport | format_types.py:43-59 | the demonstration formats Revenue, Discount and Sale Date as `$#,##0.00`, `0.00%` and `mm/dd/yyyy` in sheet columns 1, 2 and 3 |
| ExcelFormat.ExampleUnknownFormat | format_types.py:31-33 | an unknown logical name on a table column fails with a lookup error naming it, while an unknown name on a non-column key is never looked up |

## Findings

| source | as written | input that shows it | evidently intended | confidence | as-written member | corrected member |
|---|---|---|---|---|---|---|
| macrocolunas.py:43 | `create_multiindex` passes the relation straight to `MultiIndex.from_tuples`, which cannot infer the number of levels of an empty list and raises, so `create_multiindex_dataframe` fails on an empty relation | any table with the relation `[]` | an empty relation gives a table with the original row index and no columns, like every other relation giving one column per entry | medium, not executed | MacroColumns.CreateMultiIndexDataFrame (with MacroColumns.CreateMultiIndex; shown by MacroColumns.EmptyRelationFails) | MacroColumns.Reshape (with MacroColumns.IndexFromTuples) |

## Left out

- Spreadsheet I/O is not modelled: `pd.ExcelWriter`, `to_excel`, `workbook.add_format`, `writer.save()` and the output file `<file_name>.xlsx` with its sheet `Sheet1`. Only the plan of format applications is modelled, and on a lookup error no plan is produced.
- Failures outside the formatting loop are not modelled: before it, creating the writer and writing the table (format_types.py:22-23), which come before any lookup error; after it, `writer.save()` (format_types.py:39), including its `AttributeError` on pandas 2.0 and later, where that method was removed. `PlanFormats` says when the loop completes, not when the export does.
- Console output is not modelled: the printed warning text and the export confirmation. Warnings are returned as the missing column names.
- The module-level demonstrations are not executed. Each module restates its demonstration as one example lemma: `ExampleReshape` and `ExampleSalesReport`. `ExampleUnknownFormat` is an extra scenario that is not in the script.
- pandas internals are abstracted to sequences and maps: Series alignment on the index, the `MultiIndex` levels/codes representation and column dtypes. A source table with duplicate column names cannot be represented, because columns are a map by name.
- How a spreadsheet renders a format code is not modelled, and neither are float or datetime value semantics.
- The width argument of `set_column`, always `None`, is not modelled.
