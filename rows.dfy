/** The importer's data frame: the CSV rows, the `amount` column computed from `Total`, the filter
    that drops rows without an emplid, and the `ps_insert` call made for each remaining row. */
module Rows {
  import opened Wrappers
  import opened Sequences
  import opened Currency
  import opened Paysheet

  /** A `Total` cell: text when pandas read the column as text, a number when it read it as numeric. */
  datatype TotalCell = Text(text: string) | Number(number: real)

  /** One CSV row. An optional column missing from the file is `None` in every row; `emplid` is
      `None` where its cell is null. */
  datatype CsvRow = CsvRow(
    emplid: Option<string>, emplRcd: Option<int>, seqNo: Option<int>, earningCode: string,
    hours: Option<real>, total: TotalCell, comboCode: Option<string>,
    disableDirectDeposit: Option<string>)

  /** A CSV row together with the `amount` column derived from its `Total`. */
  datatype SheetRow = SheetRow(csv: CsvRow, amount: real)

  /** The batch parameters from the command line: company, pay group and the earns period. */
  datatype Batch = Batch(company: string, paygroup: string, earnsBegin: Date, earnsEnd: Date)

  /** The `amount` of one row: text is cleaned and converted, a number passes through as it is. */
  function ConvertTotal(c: TotalCell): (r: Result<real, ConversionError>)
    ensures c.Number? ==> r == Success(c.number)
    ensures c.Text? ==> (r.Success? <==> IsDecimal(CleanTotal(c.text)))
    ensures c.Text? && r.Success? ==> r.value >= 0.0
  {
    match c
    case Number(x) => Success(x)
    case Text(s) =>
      ParseDecimalAccepts(CleanTotal(s));
      ParseDecimal(CleanTotal(s))
  }

  lemma ConvertTotalExamples()
    ensures ConvertTotal(Text("$1,234.56")) == Success(1234.56)
    ensures ConvertTotal(Text("1,000.00")) == Success(1000.0)
    ensures ConvertTotal(Text("20.0")) == Success(20.0)
  {
    ParseDecimalDollarExample();
    ParseDecimalThousandsExample();
    ParseDecimalTwentyExample();
  }

  /** A `Total` written with a minus sign converts to the same amount as without it. */
  lemma ConvertTotalIgnoresSign(s: string)
    ensures ConvertTotal(Text("-" + s)) == ConvertTotal(Text(s))
  {
    CleanTotalDropsSign(s);
  }

  /** The CSV columns of a sequence of frame rows. */
  function CsvOf(sheet: seq<SheetRow>): (r: seq<CsvRow>)
    ensures |r| == |sheet| && forall i :: 0 <= i < |r| ==> r[i] == sheet[i].csv
  {
    if sheet == [] then [] else [sheet[0].csv] + CsvOf(sheet[1..])
  }

  /** The frame with its `amount` column, or the conversion error of the first row whose `Total`
      does not convert. */
  function WithAmounts(rows: seq<CsvRow>): (r: Result<seq<SheetRow>, ConversionError>)
    ensures r.Success? <==> forall i :: 0 <= i < |rows| ==> ConvertTotal(rows[i].total).Success?
    ensures r.Success? ==>
      && CsvOf(r.value) == rows && |r.value| == |rows|
      && forall i :: 0 <= i < |rows| ==> ConvertTotal(rows[i].total) == Success(r.value[i].amount)
    ensures r.Failure? ==>
      exists i :: (0 <= i < |rows| && ConvertTotal(rows[i].total) == Failure(r.error)
                   && forall j :: 0 <= j < i ==> ConvertTotal(rows[j].total).Success?)
  {
    if rows == [] then Success([])
    else
      match ConvertTotal(rows[0].total)
      case Failure(e) => Failure(e)
      case Success(a) =>
        match WithAmounts(rows[1..])
        case Failure(e) => Failure(e)
        case Success(rest) => Success([SheetRow(rows[0], a)] + rest)
  }

  predicate CsvHasEmplid(row: CsvRow) { row.emplid.Some? }

  predicate HasEmplid(row: SheetRow) { CsvHasEmplid(row.csv) }

  predicate LacksEmplid(row: SheetRow) { !HasEmplid(row) }

  /** `df[~pd.isnull(df.emplid)]`. */
  function DropNullEmplid(sheet: seq<SheetRow>): (r: seq<SheetRow>)
    ensures |r| <= |sheet|
    ensures forall i :: 0 <= i < |r| ==> HasEmplid(r[i])
  {
    Filter(HasEmplid, sheet)
  }

  /** A row survives exactly when it has an emplid, and as often as it occurs. */
  lemma DropNullEmplidKeeps(sheet: seq<SheetRow>, row: SheetRow)
    ensures row in DropNullEmplid(sheet) <==> row in sheet && HasEmplid(row)
    ensures multiset(DropNullEmplid(sheet))[row] == if HasEmplid(row) then multiset(sheet)[row] else 0
  {
    FilterMembership(HasEmplid, sheet, row);
    FilterCount(HasEmplid, sheet, row);
  }

  /** The surviving rows keep their relative order. */
  lemma DropNullEmplidOrder(sheet: seq<SheetRow>)
    ensures IsSubsequence(DropNullEmplid(sheet), sheet)
  {
    FilterIsSubsequence(HasEmplid, sheet);
  }

  /** The surviving rows are exactly the CSV rows with an emplid, in order. */
  lemma {:induction false} DropNullEmplidRows(sheet: seq<SheetRow>)
    ensures CsvOf(DropNullEmplid(sheet)) == Filter(CsvHasEmplid, CsvOf(sheet))
  {
    if sheet != [] {
      DropNullEmplidRows(sheet[1..]);
      assert sheet == [sheet[0]] + sheet[1..];
      var rest := DropNullEmplid(sheet[1..]);
      if HasEmplid(sheet[0]) {
        assert DropNullEmplid(sheet) == [sheet[0]] + rest;
        assert ([sheet[0]] + rest)[1..] == rest;
      }
    }
  }

  /** The rows dropped and the rows kept make up the frame. */
  lemma DropNullEmplidSplit(sheet: seq<SheetRow>)
    ensures |DropNullEmplid(sheet)| + |Filter(LacksEmplid, sheet)| == |sheet|
  {
    FilterPartition(HasEmplid, LacksEmplid, sheet);
  }

  /** A text cell that Python finds true: present and not empty. */
  predicate IsTruthy(c: Option<string>) { c.Some? && c.value != "" }

  /** The arguments of the `ps_insert` call for one row. Each optional column is used when it is
      present and true as Python sees it, and otherwise takes its default; `disable_direct_deposit`
      is passed only when there is one, so that otherwise the signature's default applies. An empty
      text comes only from a literal empty string: pandas reads an empty cell as NaN. */
  function Resolve(row: SheetRow, batch: Batch): (a: InsertArgs)
    requires HasEmplid(row)
    ensures a.emplid == row.csv.emplid.value && a.earningCode == row.csv.earningCode
    ensures a.emplRcd == row.csv.emplRcd.GetOr(0) && a.seqNo == row.csv.seqNo.GetOr(0)
    ensures a.hours == row.csv.hours.GetOr(0.0) && a.amount == row.amount
    ensures IsTruthy(row.csv.comboCode) ==> a.acctCd == row.csv.comboCode.value
    ensures !IsTruthy(row.csv.comboCode) ==> a.acctCd == Blank
    ensures IsTruthy(row.csv.disableDirectDeposit) ==> a.disableDirectDeposit == row.csv.disableDirectDeposit.value
    ensures !IsTruthy(row.csv.disableDirectDeposit) ==> a.disableDirectDeposit == DefaultDisableDirectDeposit
    ensures a.acctCd != "" && a.disableDirectDeposit != ""
    ensures a.company == batch.company && a.paygroup == batch.paygroup
    ensures a.earnsBegin == batch.earnsBegin && a.earnsEnd == batch.earnsEnd
  {
    var c := row.csv;
    var disableDirectDeposit := if IsTruthy(c.disableDirectDeposit) then c.disableDirectDeposit else None;
    var emplRcd := if c.emplRcd.Some? && c.emplRcd.value != 0 then c.emplRcd.value else 0;
    var seqNo := if c.seqNo.Some? && c.seqNo.value != 0 then c.seqNo.value else 0;
    var hours := if c.hours.Some? && c.hours.value != 0.0 then c.hours.value else 0.0;
    var amount := if row.amount != 0.0 then row.amount else 0.0;
    var acctCd := if IsTruthy(c.comboCode) then c.comboCode.value else Blank;
    if disableDirectDeposit.Some? then
      InsertArgs(c.emplid.value, emplRcd, seqNo, c.earningCode, batch.earnsBegin, batch.earnsEnd,
                 amount, hours, batch.paygroup, disableDirectDeposit.value, acctCd, batch.company)
    else
      InsertArgs(c.emplid.value, emplRcd, seqNo, c.earningCode, batch.earnsBegin, batch.earnsEnd,
                 amount, hours, batch.paygroup, DefaultDisableDirectDeposit, acctCd, batch.company)
  }

  /** The records of the inserts for `rows`, in order; the i-th insert reads the clock as `clock(i)`. */
  function Records(rows: seq<SheetRow>, batch: Batch, clock: nat -> Date): (r: seq<Record>)
    requires forall i :: 0 <= i < |rows| ==> HasEmplid(rows[i])
    ensures |r| == |rows|
    decreases |rows|
  {
    if rows == [] then []
    else
      var n := |rows| - 1;
      Records(rows[..n], batch, clock) + [PsInsert(Resolve(rows[n], batch), clock(n))]
  }

  /** The i-th record is the one built from the i-th row at the i-th clock reading. */
  lemma {:induction false} RecordsAt(rows: seq<SheetRow>, batch: Batch, clock: nat -> Date, i: nat)
    requires i < |rows| && forall j :: 0 <= j < |rows| ==> HasEmplid(rows[j])
    ensures Records(rows, batch, clock)[i] == PsInsert(Resolve(rows[i], batch), clock(i))
    decreases |rows|
  {
    var n := |rows| - 1;
    if i < n {
      RecordsAt(rows[..n], batch, clock, i);
    }
  }

  /** Every record carries this loader's source tag and the pinned columns. */
  lemma RecordsArePinned(rows: seq<SheetRow>, batch: Batch, clock: nat -> Date)
    requires forall j :: 0 <= j < |rows| ==> HasEmplid(rows[j])
    ensures forall i :: 0 <= i < |rows| ==> HasPinnedColumns(Records(rows, batch, clock)[i])
  {
    forall i | 0 <= i < |rows|
      ensures HasPinnedColumns(Records(rows, batch, clock)[i])
    {
      RecordsAt(rows, batch, clock, i);
    }
  }

  /** One more insert adds its record at the end. */
  lemma RecordsStep(rows: seq<SheetRow>, i: nat, batch: Batch, clock: nat -> Date)
    requires i < |rows| && forall j :: 0 <= j < |rows| ==> HasEmplid(rows[j])
    ensures Records(rows[..i + 1], batch, clock)
         == Records(rows[..i], batch, clock) + [PsInsert(Resolve(rows[i], batch), clock(i))]
  {
    assert rows[..i + 1][..i] == rows[..i];
  }

  /** When every `Total` converts, the rows that survive the filter are the CSV rows with an
      emplid, in order, each with its converted `Total`. */
  lemma KeptRows(csv: seq<CsvRow>)
    requires WithAmounts(csv).Success?
    ensures var kept := DropNullEmplid(WithAmounts(csv).value);
      var wanted := Filter(CsvHasEmplid, csv);
      && |kept| == |wanted|
      && forall k :: 0 <= k < |kept| ==>
           ConvertTotal(wanted[k].total).Success? && kept[k] == SheetRow(wanted[k], ConvertTotal(wanted[k].total).value)
  {
    var sheet := WithAmounts(csv).value;
    var kept := DropNullEmplid(sheet);
    var wanted := Filter(CsvHasEmplid, csv);
    DropNullEmplidRows(sheet);
    forall k | 0 <= k < |kept|
      ensures ConvertTotal(wanted[k].total).Success? && kept[k] == SheetRow(wanted[k], ConvertTotal(wanted[k].total).value)
    {
      assert kept[k] in kept;
      DropNullEmplidKeeps(sheet, kept[k]);
      var j :| 0 <= j < |sheet| && sheet[j] == kept[k];
      assert sheet[j].csv == csv[j];
    }
  }

  /** A frame of two rows, one of them without an emplid, loads one row. */
  lemma DropNullEmplidExample(kept: CsvRow, dropped: CsvRow, a: real, b: real)
    requires kept.emplid == Some("1001") && dropped.emplid == None
    ensures DropNullEmplid([SheetRow(kept, a), SheetRow(dropped, b)]) == [SheetRow(kept, a)]
  {
    var sheet := [SheetRow(kept, a), SheetRow(dropped, b)];
    assert sheet[1..] == [SheetRow(dropped, b)];
    assert sheet[1..][1..] == [];
    assert Filter(HasEmplid, sheet[1..]) == Filter(HasEmplid, []);
    assert Filter(HasEmplid, sheet) == [sheet[0]] + Filter(HasEmplid, sheet[1..]);
  }
}
