/** One row of the paysheet staging table PS_PSHUP_TXN, as `ps_insert` fills it in. The record is the
    parameter set of the insert statement, one field per column; the statement's text is not part
    of the model. */
module Paysheet {
  import opened Wrappers

  /** A date or timestamp. Dates are opaque here: only their identity matters. */
  datatype Date = Date(stamp: int)

  /** The source tag this loader writes and purges. The payroll system accepts third-party rows
      whose two-character source starts with 'O'. */
  const SourceTag: string := "OT"

  /** The blank that stands for an unused character column. */
  const Blank: string := " "

  /** `ps_insert`'s default for `disable_direct_deposit`. */
  const DefaultDisableDirectDeposit: string := "N"

  lemma SourceTagConvention()
    ensures |SourceTag| == 2 && SourceTag[0] == 'O'
  {
  }

  datatype Record = Record(
    puSource: string, creationDt: Date, company: string, paygroup: string, payEndDt: Date,
    offCycle: string, earnsBeginDt: Date, earnsEndDt: Date, emplid: string, emplRcd: int,
    seqno: int, puTxnType: string, puTxnStatus: string, pageNum: int, lineNum: int,
    addlNbr: int, sepchk: int, deptid: string, jobcode: string, positionNbr: string,
    acctCd: string, glPayType: string, puDistribute: string, erncd: string,
    addlPayShift: string, addlSeq: int, addlpayReason: string, othHrs: real, hourlyRt: int,
    okToPay: string, disableDirDep: string, state: string, locality: string, taxPeriods: int,
    taxMethod: string, dedTaken: string, dedSubsetId: string, dedTakenGenl: string,
    dedSubsetGenl: string, businessUnit: string, compRatecd: string, taxClass: string,
    oneTimeCd: string, ctxClass: string, planType: string, benefitPlan: string, dedcd: string,
    dedClass: string, dedCalc: string, dedRatePct: int, puAmt: real, manualCheck: string,
    paycheckNbr: int, dedSlstxClass: string, exDocId: string, exDocType: string,
    exLineNbr: int, currencyCd: string, overrideOnly: string, grossup: string,
    vcPlanId: string, vcPayoutPrdId: string, gbGroupId: string, applid: string,
    awardDate: Option<Date>, eimKey: string, payoutDt: Option<Date>, garnid: string,
    garnOneTimeCd: string, garnPriority: int, garnDedCalc: string, garnDedPct: int,
    garnDedAmt: int, cmpnyFeePct: int, cmpnyFeeAmt: int, payeeFeePct: int, payeeFeeAmt: int,
    pyGarnExempt: string, checkDt: Option<Date>, puTxnManualChg: string, workPsdCd: string,
    resPsdCd: string, oprid: string)

  /** The arguments of `ps_insert` other than the connection, in its order. */
  datatype InsertArgs = InsertArgs(
    emplid: string, emplRcd: int, seqNo: int, earningCode: string, earnsBegin: Date,
    earnsEnd: Date, amount: real, hours: real, paygroup: string, disableDirectDeposit: string,
    acctCd: string, company: string)

  /** Every column `ps_insert` does not take from its arguments holds its fixed value, and the pay
      end date is the earns end date. */
  predicate HasPinnedColumns(r: Record) {
    && r.puSource == SourceTag && r.payEndDt == r.earnsEndDt && r.offCycle == "N"
    && r.puTxnType == "E" && r.puTxnStatus == "A"
    && r.pageNum == 0 && r.lineNum == 0 && r.addlNbr == 0 && r.sepchk == 0
    && r.deptid == Blank && r.jobcode == Blank && r.positionNbr == Blank
    && r.glPayType == Blank && r.puDistribute == Blank && r.addlPayShift == "J"
    && r.addlSeq == 0 && r.addlpayReason == Blank && r.hourlyRt == 0 && r.okToPay == Blank
    && r.state == Blank && r.locality == Blank && r.taxPeriods == 0 && r.taxMethod == Blank
    && r.dedTaken == Blank && r.dedSubsetId == Blank && r.dedTakenGenl == Blank
    && r.dedSubsetGenl == Blank && r.businessUnit == Blank && r.compRatecd == Blank
    && r.taxClass == Blank && r.oneTimeCd == Blank && r.ctxClass == Blank
    && r.planType == Blank && r.benefitPlan == Blank && r.dedcd == Blank
    && r.dedClass == Blank && r.dedCalc == Blank && r.dedRatePct == 0
    && r.manualCheck == "N" && r.paycheckNbr == 0 && r.dedSlstxClass == Blank
    && r.exDocId == Blank && r.exDocType == Blank && r.exLineNbr == 0
    && r.currencyCd == Blank && r.overrideOnly == "Y" && r.grossup == "N"
    && r.vcPlanId == Blank && r.vcPayoutPrdId == Blank && r.gbGroupId == Blank
    && r.applid == Blank && r.awardDate == None && r.eimKey == Blank && r.payoutDt == None
    && r.garnid == Blank && r.garnOneTimeCd == Blank && r.garnPriority == 0
    && r.garnDedCalc == Blank && r.garnDedPct == 0 && r.garnDedAmt == 0
    && r.cmpnyFeePct == 0 && r.cmpnyFeeAmt == 0 && r.payeeFeePct == 0 && r.payeeFeeAmt == 0
    && r.pyGarnExempt == Blank && r.checkDt == None && r.puTxnManualChg == Blank
    && r.workPsdCd == Blank && r.resPsdCd == Blank && r.oprid == Blank
  }

  /** The arguments a record was built from, read back from the columns they were written to. */
  function ArgsOf(r: Record): (a: InsertArgs) {
    InsertArgs(
      emplid := r.emplid, emplRcd := r.emplRcd, seqNo := r.seqno, earningCode := r.erncd,
      earnsBegin := r.earnsBeginDt, earnsEnd := r.earnsEndDt, amount := r.puAmt,
      hours := r.othHrs, paygroup := r.paygroup, disableDirectDeposit := r.disableDirDep,
      acctCd := r.acctCd, company := r.company)
  }

  /** The parameter set of `ps_insert`; `creationDt` is the clock reading taken for this call. */
  function PsInsert(a: InsertArgs, creationDt: Date): (r: Record)
    ensures HasPinnedColumns(r)
    ensures ArgsOf(r) == a && r.creationDt == creationDt
  {
    Record(
      puSource := SourceTag, creationDt := creationDt, company := a.company,
      paygroup := a.paygroup, payEndDt := a.earnsEnd, offCycle := "N",
      earnsBeginDt := a.earnsBegin, earnsEndDt := a.earnsEnd, emplid := a.emplid,
      emplRcd := a.emplRcd, seqno := a.seqNo, puTxnType := "E", puTxnStatus := "A",
      pageNum := 0, lineNum := 0, addlNbr := 0, sepchk := 0, deptid := Blank,
      jobcode := Blank, positionNbr := Blank, acctCd := a.acctCd, glPayType := Blank,
      puDistribute := Blank, erncd := a.earningCode, addlPayShift := "J", addlSeq := 0,
      addlpayReason := Blank, othHrs := a.hours, hourlyRt := 0, okToPay := Blank,
      disableDirDep := a.disableDirectDeposit, state := Blank, locality := Blank,
      taxPeriods := 0, taxMethod := Blank, dedTaken := Blank, dedSubsetId := Blank,
      dedTakenGenl := Blank, dedSubsetGenl := Blank, businessUnit := Blank,
      compRatecd := Blank, taxClass := Blank, oneTimeCd := Blank, ctxClass := Blank,
      planType := Blank, benefitPlan := Blank, dedcd := Blank, dedClass := Blank,
      dedCalc := Blank, dedRatePct := 0, puAmt := a.amount, manualCheck := "N",
      paycheckNbr := 0, dedSlstxClass := Blank, exDocId := Blank, exDocType := Blank,
      exLineNbr := 0, currencyCd := Blank, overrideOnly := "Y", grossup := "N",
      vcPlanId := Blank, vcPayoutPrdId := Blank, gbGroupId := Blank, applid := Blank,
      awardDate := None, eimKey := Blank, payoutDt := None, garnid := Blank,
      garnOneTimeCd := Blank, garnPriority := 0, garnDedCalc := Blank, garnDedPct := 0,
      garnDedAmt := 0, cmpnyFeePct := 0, cmpnyFeeAmt := 0, payeeFeePct := 0,
      payeeFeeAmt := 0, pyGarnExempt := Blank, checkDt := None, puTxnManualChg := Blank,
      workPsdCd := Blank, resPsdCd := Blank, oprid := Blank)
  }

  /** Conversely, every record with the pinned columns is what `ps_insert` builds from the
      arguments it carries: the pinned columns and the arguments determine a staged record. */
  lemma PinnedRecordIsBuilt(r: Record)
    requires HasPinnedColumns(r)
    ensures PsInsert(ArgsOf(r), r.creationDt) == r
  {
  }

  /** Different arguments, or different clock readings, give different records. */
  lemma PsInsertInjective(a: InsertArgs, b: InsertArgs, t: Date, u: Date)
    ensures PsInsert(a, t) == PsInsert(b, u) <==> a == b && t == u
  {
  }
}
