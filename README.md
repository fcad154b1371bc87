# CSV paysheet import, modelled in Dafny

`import-csv.py` loads payroll earnings lines from a CSV file into PeopleSoft's third-party
paysheet staging table `sysadm.PS_PSHUP_TXN`. A run works in this order:

1. It reads the batch parameters: pay start, pay end, pay group and company.
2. It derives an `amount` column from the `Total` text. Every character other than a digit or
   `.` is removed, and the rest goes through `float`.
3. It drops the rows whose `emplid` is null.
4. It deletes every staged row whose `pu_source` is `'OT'`.
5. It calls `ps_insert` once per remaining row. That call inserts one fixed-shape record.
   Optional columns fall back to defaults.

This project models that pipeline and proves the guarantees it gives:

- exactly one `OT` record goes in per CSV row that has an emplid, in CSV order;
- rows of other sources come through untouched and in order;
- every inserted record carries source `OT` and the constant columns of `ps_insert`;
- a run that stops on a `Total` that does not convert, or on a date that was not read, leaves the table as it was.

Modules, one per stage:

- `Wrappers`: `Option` and `Result`.
- `Sequences`: a generic order-preserving filter and its lemmas. The cleanup, the emplid filter
  and the delete are all instances of it.
- `Currency`: the `Total` cleanup, and `float` on the cleaned text.
- `Paysheet`: the 83-column staging record and the `ps_insert` parameter set.
- `Rows`: CSV rows, the `amount` column, the emplid filter and the per-row defaulting.
- `Staging`: the staging table as a class over a sequence of records, with the delete of
  `clean_ps_table` and the single-row insert.
- `ImportCsv`: the whole run, as the function `Import` and the method `Run`. `Run` carries out the
  purge and the insert loop on a `StagingTable`.

Modelling choices:

- **Truthiness.**
  - An optional column missing from the file is `None` in every row. Conversely, an optional
    column present in the file is `Some` in every row (a blank cell is NaN, see "## Left out"), so
    a `None` in one row and a `Some` in another of the same column stands for no CSV file.
  - A number is false exactly when it is zero.
  - A text value is false exactly when it is empty. No CSV cell yields an empty text: pandas reads
    an empty cell of any column as NaN, which is outside the model (see "## Left out"). So the
    defaults `' '` for `acct_cd` and `'N'` for `disable_dir_dep` apply in the model when the column
    is missing from the file, or to a literal empty text.
- **`float`.** On the cleaned text, `float` succeeds exactly when the text has at most one point
  and at least one digit. Its value is the exact decimal as a `real`.
- **Clock.** `datetime.now()` becomes the parameter `clock`; the i-th insert stamps
  `creation_dt` with `clock(i)`.
- **Dates.** Dates are opaque values. A date `dateparser` could not read is `None`. `strftime` then
  fails while the warning message is being built, before anything is deleted.
- **Order.** The amount conversion runs over every CSV row before the emplid filter, as in the code.
  So a `Total` that does not convert stops the run even in a row the filter would have dropped.
- **Sign.** The cleanup strips a minus sign, so `"-50.00"` converts to `50.0`.
  `ConvertTotalIgnoresSign` states this.
- **Duplicates.** Nothing in the loader rejects a duplicate (emplid, empl_rcd, seq_no) key.

## Model

| member | source | states |
|---|---|---|
| Currency.CleanTotal | import-csv.py:301 | the cleaned `Total` text contains only digits and points |
| Currency.CleanTotalCounts | import-csv.py:301 | every digit and point of the text is kept as often as it occurs, and every other character is removed |
| Currency.CleanTotalOrder | import-csv.py:301 | the kept characters stay in their original order (the result is a subsequence of the text) |
| Currency.CleanTotalUnchanged | import-csv.py:301 | the cleanup leaves a text unchanged exactly when it has only digits and points |
| Currency.CleanTotalKeeps | import-csv.py:301 | a text of digits and points is returned as it is |
| Currency.CleanTotalIdempotent | import-csv.py:301 | cleaning twice is cleaning once |
| Currency.CleanTotalAppend | import-csv.py:301 | the cleanup works character by character: it distributes over concatenation |
| Currency.CleanTotalSkips | import-csv.py:301 | a run of characters that are neither digits nor points vanishes, and the digits before it stay |
| Currency.CleanTotalDropsSign | import-csv.py:301 | a leading minus sign is removed like any other non-digit |
| Currency.CleanTotalNothingKept | import-csv.py:301 | `"TBD"`, which has no digit or point, cleans to the empty text |
| Currency.CleanTotalDollarExample | import-csv.py:301 | `"$1,234.56"` cleans to `"1234.56"` |
| Currency.CleanTotalThousandsExample | import-csv.py:301 | `"1,000.00"` cleans to `"1000.00"` |
| Currency.ParseDecimal | import-csv.py:301 | `float` of cleaned text, when it succeeds, is never negative |
| Currency.ParseDecimalAccepts | import-csv.py:301 | `float` of cleaned text succeeds exactly when the text has at most one point and at least one digit |
| Currency.ParseWithoutDot | import-csv.py:301 | cleaned text without a point converts exactly when it is not empty |
| Currency.ParseWithDot | import-csv.py:301 | cleaned text with a point converts exactly when it has no second point and has a digit |
| Currency.ParseDecimalValue | import-csv.py:301 | digits, a point and digits convert to the number they write |
| Currency.ParseDecimalWholeValue | import-csv.py:301 | cleaned text of digits alone (`"$1,234"` cleans to `"1234"`) converts to the whole number it writes |
| Currency.ParseDecimalDollarExample | import-csv.py:301 | the cleaned `"$1,234.56"` converts to 1234.56 |
| Currency.ParseDecimalThousandsExample | import-csv.py:301 | the cleaned `"1,000.00"` converts to 1000.0 |
| Currency.ParseDecimalTwentyExample | import-csv.py:301 | `"20.0"` is already clean and converts to 20.0 |
| Currency.ParseDecimalRejects | import-csv.py:301 | `""`, `"."` and `"1.2.3"` do not convert |
| Paysheet.SourceTagConvention | import-csv.py:109-111 | the source tag is two characters and starts with `O` |
| Paysheet.PsInsert | import-csv.py:71-205 | the record holds every fixed value of the parameter set, passes each argument through to its column, takes `pay_end_dt` from `earns_end`, and carries the clock reading as `creation_dt` |
| Paysheet.PinnedRecordIsBuilt | import-csv.py:120-205 | conversely, every record with those fixed columns is exactly what `ps_insert` builds from the arguments it carries |
| Paysheet.PsInsertInjective | import-csv.py:120-205 | two calls give the same record exactly when their arguments and clock readings agree |
| Rows.ConvertTotal | import-csv.py:301 | a number passes through unchanged; a text converts exactly when its cleaned form has at most one point and a digit, and then to a non-negative amount |
| Rows.ConvertTotalExamples | import-csv.py:301 | the `Total` texts `"$1,234.56"`, `"1,000.00"` and `"20.0"` give the amounts 1234.56, 1000.0 and 20.0 |
| Rows.ConvertTotalIgnoresSign | import-csv.py:301 | a `Total` with a leading minus sign gives the same amount as without it |
| Rows.WithAmounts | import-csv.py:301 | the amount column succeeds exactly when every row's `Total` converts; it then keeps every row, in order, with its converted amount; otherwise it reports the error of the first row that fails |
| Rows.DropNullEmplid | import-csv.py:304 | every surviving row has an emplid, and there are no more rows than before |
| Rows.DropNullEmplidKeeps | import-csv.py:304 | a row survives exactly when it has an emplid, as often as it occurs |
| Rows.DropNullEmplidOrder | import-csv.py:304 | the surviving rows keep their relative order |
| Rows.DropNullEmplidRows | import-csv.py:304 | the surviving rows are exactly the CSV rows with an emplid, in order |
| Rows.DropNullEmplidSplit | import-csv.py:304 | the kept and the dropped rows together number the rows of the frame |
| Rows.DropNullEmplidExample | import-csv.py:304 | two rows, one with a null emplid, leave one row |
| Rows.Resolve | import-csv.py:327-339 | `empl_rcd`, `seq_no` and `hours` take the row's value when given and 0 otherwise; `amount` is the converted `Total`; `acct_cd` is the combo code when given and non-empty, and `' '` when the column is missing (or the text is empty); `disable_direct_deposit` is the row's value when given and non-empty, and the `'N'` default of `ps_insert` when the column is missing (or the text is empty); neither text is ever empty; company, pay group and earns dates come from the batch |
| Rows.Records | import-csv.py:323-343 | one record per row |
| Rows.RecordsAt | import-csv.py:336-343 | the i-th record is `ps_insert`'s record for the i-th row, stamped with the i-th clock reading |
| Rows.RecordsArePinned | import-csv.py:120-205 | every inserted record has source `OT` and all fixed columns |
| Rows.RecordsStep | import-csv.py:343 | one more row adds its record at the end |
| Rows.KeptRows | import-csv.py:301-304 | when every `Total` converts, the filtered frame is the CSV rows with an emplid, in order, each with its converted `Total` |
| Staging.Purged | import-csv.py:221 | no row with source `OT` is left after the delete |
| Staging.LoaderRows | import-csv.py:221-223 | the rows the delete removes all have source `OT` |
| Staging.PurgedKeeps | import-csv.py:221 | the delete removes exactly the `OT` rows, each as often as it occurs, and keeps every other row as often as it occurs |
| Staging.PurgedOrder | import-csv.py:221 | the remaining rows keep their order |
| Staging.PurgedSplits | import-csv.py:221-223 | the reported rowcount plus the remaining rows make up the old table |
| Staging.PurgedIsClean | import-csv.py:221 | after the delete no `OT` row is left, so a second delete changes nothing |
| Staging.PurgedAppend | import-csv.py:221 | the delete and its rowcount work row by row |
| Staging.PurgedLoaderRows | import-csv.py:221 | a table of `OT` rows only is emptied |
| Staging.StagingTable.Purge | import-csv.py:217-223 | the table becomes its non-`OT` rows, and the returned count is the number of rows deleted |
| Staging.StagingTable.Insert | import-csv.py:207-212 | the record is added to the table, and the rowcount is one |
| ImportCsv.BatchOf | import-csv.py:292-295 | the batch takes company and pay group from the command line and both earns dates from the parsed pay start and pay end, which must both be present |
| ImportCsv.Import | import-csv.py:292-346 | a run fails exactly when some `Total` does not convert or a date was not parsed; a date failure can only occur when every `Total` converted |
| ImportCsv.ImportKeepsOtherRows | import-csv.py:321-346 | rows of other sources come through a run unchanged and in order |
| ImportCsv.ImportLoaderRows | import-csv.py:321-346 | after a run the table is the old non-`OT` rows followed by the `OT` rows, and those are exactly the records of the CSV rows with an emplid, in order |
| ImportCsv.ImportLoadsEachRow | import-csv.py:301-346 | there is one `OT` row per CSV row with an emplid; the k-th is `ps_insert`'s record for the k-th such row, its converted `Total` and the k-th clock reading |
| ImportCsv.ImportRerun | import-csv.py:321-343 | repeating a run gives what the second run alone gives, whatever clock the first used |
| ImportCsv.ImportKeepsDuplicateKeys | import-csv.py:323-343 | two CSV rows with the same emplid, record and sequence number both load |
| ImportCsv.ImportExample | import-csv.py:301-343 | two CSV rows of a file without the optional columns, one with a null emplid, add one record after the existing rows, with `pu_amt` 1000.0 from `"1,000.00"`, `oth_hrs` and `empl_rcd` 0, `acct_cd` `' '` and `disable_dir_dep` `'N'` |
| ImportCsv.ImportStopsOnBadTotal | import-csv.py:301-304 | a text `Total` of `"TBD"` stops the run with the error of the empty cleaned text, even on a row with a null emplid and after a first row that converts |
| ImportCsv.InsertAll | import-csv.py:323-343 | the table gains the records of the rows, in order, after its old rows |
| ImportCsv.Run | import-csv.py:292-346 | a failing run reports `Import`'s error and leaves the table unchanged; a successful run leaves the table as `Import` gives it and reports the number of rows deleted |

## Left out

- Database access is not modelled: the Oracle connection, cursors and the text of the insert statement. The table is an in-memory sequence of records. Its order is the order rows were added, which a relational table does not promise.
- Transactions are not modelled. `clean_ps_table` commits the delete on its own, before any insert, so purge and load are not one atomic step. `Run` does not claim they are.
- Database errors are outside the model. An insert that fails, for example on a key the database enforces, would leave the delete committed and the inserts uncommitted; in the model every insert succeeds.
- The configuration file, environment variables and argparse are not modelled. `Command` holds the arguments once parsed.
- CSV reading with pandas is taken as given: the input is a sequence of `CsvRow`s.
- pandas' type inference is not modelled, including reading an emplid column as numbers. `emplid` is text.
- A required column (`emplid`, `Total`, `earning_code`) missing from the file is not modelled. The code fails on it with an AttributeError. For `emplid` and `Total` that happens before the delete. For `earning_code` it happens inside the insert loop at line 331, after the delete has been committed, so the table is left purged with no rows loaded.
- NaN is not modelled. `read_csv` gives NaN for an empty cell of every column, the text columns `combo_code`, `earning_code` and `disable_direct_deposit` included. It also gives NaN for a cell holding one of its default missing-value markers (`NA`, `N/A`, `n/a`, `NULL`, `nan` and the like), which the call at line 297 does not turn off. NaN is true as Python sees it, so for such a `combo_code`, `disable_direct_deposit`, `empl_rcd`, `seq_no` or `hours` cell the code passes NaN on instead of the default, and a NaN `Total` passes line 301 unconverted, without a ValueError.
- Binary64 rounding is not modelled: `float` yields the exact decimal value. A digit string too large for binary64 makes Python's `float` return `inf`; the model gives its exact value instead. Exponents, signs and spellings such as `inf` cannot reach `float`, because the cleanup removes every character other than digits and points.
- Only the ASCII digits `0`-`9` are modelled. Python's `\d` also matches other Unicode decimal digits.
- `dateparser.parse` is not modelled: a date is opaque or `None`. `datetime.now()` becomes the `clock` parameter.
- The warning message, its `print`, `time.sleep`, and the printed rowcount are left out because they are I/O. The rowcount is returned by `Purge` and `Run` instead.
- pandas' `apply` is taken to call `insert` exactly once per row, in row order. When no row is left after the emplid filter, some pandas versions call the function once on an empty probe row to infer the result shape and discard any exception it raises; whether that probe reaches `ps_insert` is not modelled, and the model inserts nothing in that case.
- The docstring of `ps_insert` says amount and hours should not both be set. The code does not enforce this, and neither does the model.
