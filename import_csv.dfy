/** The importer's main sequence: convert `Total`, drop rows without an emplid, check the dates,
    delete the loader's old rows, then insert one row per remaining CSV row. */
module ImportCsv {
  import opened Wrappers
  import opened Sequences
  import opened Currency
  import opened Paysheet
  import opened Rows
  import opened Staging

  /** Why a run stops before it touches the table. */
  datatype ImportError =
    | BadTotal(cause: ConversionError)  // `float` raised on a cleaned `Total`
    | UnparsedDate                      // `dateparser` gave no date, so `strftime` raised

  /** The positional command-line arguments after the CSV path; a date is `None` when `dateparser`
      could not read it. */
  datatype Command = Command(payStart: Option<Date>, payEnd: Option<Date>, payGroup: string, company: string)

  /** The batch a run loads: company and pay group from the command line, and the two earns dates,
      which must both have been read. */
  function BatchOf(cmd: Command): (b: Batch)
    requires cmd.payStart.Some? && cmd.payEnd.Some?
    ensures b.company == cmd.company && b.paygroup == cmd.payGroup
    ensures Some(b.earnsBegin) == cmd.payStart && Some(b.earnsEnd) == cmd.payEnd
  {
    Batch(cmd.company, cmd.payGroup, cmd.payStart.value, cmd.payEnd.value)
  }

  /** The table after a run, or the error that stops it first. */
  function Import(table: seq<Record>, csv: seq<CsvRow>, cmd: Command, clock: nat -> Date)
    : (r: Result<seq<Record>, ImportError>)
    ensures r.Failure? <==>
      || (exists i :: 0 <= i < |csv| && ConvertTotal(csv[i].total).Failure?)
      || cmd.payStart.None? || cmd.payEnd.None?
    ensures r.Failure? && r.error.UnparsedDate? ==> forall i :: 0 <= i < |csv| ==> ConvertTotal(csv[i].total).Success?
  {
    match WithAmounts(csv)
    case Failure(e) => Failure(BadTotal(e))
    case Success(sheet) =>
      if cmd.payStart.None? || cmd.payEnd.None? then Failure(UnparsedDate)
      else Success(Purged(table) + Records(DropNullEmplid(sheet), BatchOf(cmd), clock))
  }

  /** Rows of other sources come through a run unchanged and in their order. */
  lemma ImportKeepsOtherRows(table: seq<Record>, csv: seq<CsvRow>, cmd: Command, clock: nat -> Date)
    requires Import(table, csv, cmd, clock).Success?
    ensures Purged(Import(table, csv, cmd, clock).value) == Purged(table)
  {
    var loaded := Records(DropNullEmplid(WithAmounts(csv).value), BatchOf(cmd), clock);
    PurgedAppend(Purged(table), loaded);
    PurgedIsClean(table);
    RecordsArePinned(DropNullEmplid(WithAmounts(csv).value), BatchOf(cmd), clock);
    PurgedLoaderRows(loaded);
  }

  /** After a run the loader's rows are exactly the records built from the CSV rows that have an
      emplid, one each and in CSV order; the rows it owned before are gone. */
  lemma ImportLoaderRows(table: seq<Record>, csv: seq<CsvRow>, cmd: Command, clock: nat -> Date)
    requires Import(table, csv, cmd, clock).Success?
    ensures var kept := DropNullEmplid(WithAmounts(csv).value);
      && LoaderRows(Import(table, csv, cmd, clock).value) == Records(kept, BatchOf(cmd), clock)
      && Import(table, csv, cmd, clock).value == Purged(table) + LoaderRows(Import(table, csv, cmd, clock).value)
      && CsvOf(kept) == Filter(CsvHasEmplid, csv)
  {
    var sheet := WithAmounts(csv).value;
    var kept := DropNullEmplid(sheet);
    var loaded := Records(kept, BatchOf(cmd), clock);
    PurgedAppend(Purged(table), loaded);
    PurgedIsClean(table);
    RecordsArePinned(DropNullEmplid(WithAmounts(csv).value), BatchOf(cmd), clock);
    PurgedLoaderRows(loaded);
    DropNullEmplidRows(sheet);
  }

  /** A run loads one row for every CSV row with an emplid: the k-th loader row afterwards is what
      `ps_insert` builds from the k-th such CSV row, its converted `Total` and the k-th clock reading. */
  lemma ImportLoadsEachRow(table: seq<Record>, csv: seq<CsvRow>, cmd: Command, clock: nat -> Date)
    requires Import(table, csv, cmd, clock).Success?
    ensures var wanted := Filter(CsvHasEmplid, csv);
      var loaded := LoaderRows(Import(table, csv, cmd, clock).value);
      && |loaded| == |wanted|
      && forall k :: 0 <= k < |loaded| ==>
           && ConvertTotal(wanted[k].total).Success?
           && loaded[k] == PsInsert(Resolve(SheetRow(wanted[k], ConvertTotal(wanted[k].total).value), BatchOf(cmd)), clock(k))
  {
    ImportLoaderRows(table, csv, cmd, clock);
    KeptRows(csv);
    var kept := DropNullEmplid(WithAmounts(csv).value);
    forall k | 0 <= k < |kept| {
      RecordsAt(kept, BatchOf(cmd), clock, k);
    }
  }

  /** Running the same import again gives what the second run alone would give: each run starts
      from a clean slate, whatever clock readings the first one took. */
  lemma ImportRerun(table: seq<Record>, csv: seq<CsvRow>, cmd: Command, first: nat -> Date, second: nat -> Date)
    requires Import(table, csv, cmd, first).Success?
    ensures Import(Import(table, csv, cmd, first).value, csv, cmd, second) == Import(table, csv, cmd, second)
  {
    ImportKeepsOtherRows(table, csv, cmd, first);
  }

  /** Nothing rejects a duplicate key: two CSV rows with the same emplid, record number and
      sequence number both load. */
  lemma ImportKeepsDuplicateKeys(table: seq<Record>, row: CsvRow, cmd: Command, clock: nat -> Date)
    requires row.emplid.Some? && ConvertTotal(row.total).Success?
    requires cmd.payStart.Some? && cmd.payEnd.Some?
    ensures Import(table, [row, row], cmd, clock).Success?
    ensures var loaded := LoaderRows(Import(table, [row, row], cmd, clock).value);
      && |loaded| == 2
      && loaded[0].emplid == loaded[1].emplid
      && loaded[0].emplRcd == loaded[1].emplRcd
      && loaded[0].seqno == loaded[1].seqno
  {
    var csv := [row, row];
    assert CsvHasEmplid(csv[0]) && CsvHasEmplid(csv[1]);
    FilterUnchanged(CsvHasEmplid, csv);
    ImportLoadsEachRow(table, csv, cmd, clock);
  }

  /** The CSV rows of the example below: a file with the columns `emplid`, `earning_code` and
      `Total` only, so every optional column is `None` in both rows. */
  function ExampleCsv(): (csv: seq<CsvRow>)
    ensures |csv| == 2
    ensures forall i :: 0 <= i < |csv| ==> csv[i].emplRcd.None? && csv[i].hours.None?
  {
    [CsvRow(Some("1001"), None, None, "REG", None, Text("1,000.00"), None, None),
     CsvRow(None, None, None, "REG", None, Text("20.0"), None, None)]
  }

  lemma ExampleCsvRows()
    ensures Filter(CsvHasEmplid, ExampleCsv()) == [ExampleCsv()[0]]
  {
  }

  lemma ExampleCsvAmounts()
    ensures forall i :: 0 <= i < |ExampleCsv()| ==> ConvertTotal(ExampleCsv()[i].total).Success?
    ensures ConvertTotal(ExampleCsv()[0].total) == Success(1000.0)
  {
    var csv := ExampleCsv();
    assert csv == [csv[0], csv[1]];
    assert csv[0].total == Text("1,000.00") && csv[1].total == Text("20.0");
    ConvertTotalExamples();
    BothConvert(csv[0], csv[1]);
  }

  lemma BothConvert(a: CsvRow, b: CsvRow)
    requires ConvertTotal(a.total).Success? && ConvertTotal(b.total).Success?
    ensures forall i :: 0 <= i < |[a, b]| ==> ConvertTotal([a, b][i].total).Success?
  {
  }

  /** Two CSV rows, one without an emplid, loaded into a table with no rows of this loader: one
      record goes in after the rows already there, with the cleaned and converted `Total` and the
      defaults of the missing columns. */
  lemma ImportExample(table: seq<Record>, clock: nat -> Date)
    requires forall i :: 0 <= i < |table| ==> !IsLoaderRow(table[i])
    ensures var r := Import(table, ExampleCsv(), Command(Some(Date(1)), Some(Date(2)), "EMP", "CMP"), clock);
      && r.Success? && |r.value| == |table| + 1 && r.value[..|table|] == table
      && var x := r.value[|table|];
         && x.emplid == "1001" && x.puAmt == 1000.0 && x.othHrs == 0.0 && x.emplRcd == 0
         && x.acctCd == " " && x.disableDirDep == "N" && x.puSource == "OT"
         && x.earnsBeginDt == Date(1) && x.payEndDt == Date(2) && x.creationDt == clock(0)
  {
    var cmd := Command(Some(Date(1)), Some(Date(2)), "EMP", "CMP");
    ExampleCsvRows();
    ExampleCsvAmounts();
    FilterUnchanged(IsOtherRow, table);
    ImportLoadsEachRow(table, ExampleCsv(), cmd, clock);
    ImportLoaderRows(table, ExampleCsv(), cmd, clock);
    var r := Import(table, ExampleCsv(), cmd, clock).value;
    assert r[..|table|] == table;
  }

  /** A `Total` that does not convert stops the run even in a row the filter would drop. */
  lemma ImportStopsOnBadTotal(table: seq<Record>, cmd: Command, clock: nat -> Date)
    ensures var csv := [CsvRow(Some("1001"), None, None, "REG", None, Text("1,000.00"), None, None),
                        CsvRow(None, None, None, "REG", None, Text("TBD"), None, None)];
      Import(table, csv, cmd, clock) == Failure(BadTotal(CouldNotConvert("")))
  {
    var a := CsvRow(Some("1001"), None, None, "REG", None, Text("1,000.00"), None, None);
    var b := CsvRow(None, None, None, "REG", None, Text("TBD"), None, None);
    ConvertTotalExamples();
    CleanTotalNothingKept();
    ParseDecimalRejects();
    WithAmountsSecondFails(a, b);
  }

  /** The amount column of two rows whose first `Total` converts and whose second does not fails
      with the second row's error. */
  lemma WithAmountsSecondFails(a: CsvRow, b: CsvRow)
    requires ConvertTotal(a.total).Success? && ConvertTotal(b.total).Failure?
    ensures WithAmounts([a, b]) == Failure(ConvertTotal(b.total).error)
  {
    assert [a, b][1..] == [b];
    assert [b][1..] == [];
  }

  /** The loop of `df.apply(insert, axis=1)`: one insert per row, in order. */
  method InsertAll(table: StagingTable, rows: seq<SheetRow>, batch: Batch, clock: nat -> Date)
    requires forall i :: 0 <= i < |rows| ==> HasEmplid(rows[i])
    modifies table
    ensures table.rows == old(table.rows) + Records(rows, batch, clock)
  {
    ghost var start := table.rows;
    for i := 0 to |rows|
      invariant table.rows == start + Records(rows[..i], batch, clock)
    {
      var record := PsInsert(Resolve(rows[i], batch), clock(i));
      var _ := table.Insert(record);
      RecordsStep(rows, i, batch, clock);
      assert table.rows == start + (Records(rows[..i], batch, clock) + [record]);
    }
    assert rows[..|rows|] == rows;
  }

  /** A whole run. A run that fails leaves the table as it was; one that succeeds leaves it as
      `Import` says and reports the rowcount of the delete. */
  method Run(table: StagingTable, csv: seq<CsvRow>, cmd: Command, clock: nat -> Date)
    returns (outcome: Result<nat, ImportError>)
    modifies table
    ensures var expected := Import(old(table.rows), csv, cmd, clock);
      && (expected.Failure? ==> outcome == Failure(expected.error) && table.rows == old(table.rows))
      && (expected.Success? ==> outcome == Success(|LoaderRows(old(table.rows))|) && table.rows == expected.value)
  {
    var amounts := WithAmounts(csv);
    if amounts.Failure? {
      return Failure(BadTotal(amounts.error));
    }
    var kept := DropNullEmplid(amounts.value);
    if cmd.payStart.None? || cmd.payEnd.None? {
      return Failure(UnparsedDate);
    }
    var removed := table.Purge();
    InsertAll(table, kept, BatchOf(cmd), clock);
    return Success(removed);
  }
}
