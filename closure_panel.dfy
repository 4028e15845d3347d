/**
 * The end-of-day closing panel: the cashier types the cash counted in the drawer, the
 * panel compares it with the theoretical total and enables closing only when they agree
 * to within a cent. Amounts are exact reals (units of the currency).
 */
module ClosurePanel {
  import opened Wrappers
  import opened Text
  import OperationsData

  /** `parseFloat(countedCash) || 0`: an empty or unreadable count is zero. */
  function Counted(countedCash: string): real {
    ParseFloat(countedCash).GetOr(0.0)
  }

  function Abs(x: real): real {
    if x < 0.0 then -x else x
  }

  /** `counted − theoreticalTotal`: positive when the drawer holds more than expected. */
  function Difference(counted: real, theoreticalTotal: real): real {
    counted - theoreticalTotal
  }

  /** `Math.abs(difference) < 0.01`. */
  predicate IsBalanced(difference: real) {
    Abs(difference) < 0.01
  }

  /** The result is shown once something has been typed. */
  predicate ShowResult(countedCash: string) {
    |countedCash| > 0
  }

  /** The close button: `disabled={processing || !showResult || !isBalanced}`. */
  predicate CloseEnabled(processing: bool, countedCash: string, theoreticalTotal: real)
    ensures CloseEnabled(processing, countedCash, theoreticalTotal) <==>
              !processing && ShowResult(countedCash)
              && DifferenceVerdict(Difference(Counted(countedCash), theoreticalTotal)).Balanced?
  {
    !(processing || !ShowResult(countedCash) || !IsBalanced(Difference(Counted(countedCash), theoreticalTotal)))
  }

  /** What the panel reports about a difference. */
  datatype Verdict = Balanced | Surplus(excess: real) | Shortage(missing: real)

  /** "Caja Cuadrada", or the gap as "Sobrante" when positive and "Faltante" otherwise. */
  function DifferenceVerdict(difference: real): (v: Verdict)
    ensures v.Balanced? <==> IsBalanced(difference)
    ensures v.Surplus? <==> !IsBalanced(difference) && difference > 0.0
    ensures v.Surplus? ==> v.excess == difference && v.excess >= 0.01
    ensures v.Shortage? ==> v.missing == -difference && v.missing >= 0.01
  {
    if IsBalanced(difference) then Balanced
    else if difference > 0.0 then Surplus(Abs(difference))
    else Shortage(Abs(difference))
  }

  /** Closing is enabled exactly when a count was typed, it matches to the cent, and no close is running. */
  lemma CloseEnabledIff(processing: bool, countedCash: string, theoreticalTotal: real)
    ensures CloseEnabled(processing, countedCash, theoreticalTotal)
            <==> !processing && |countedCash| > 0
                 && -0.01 < Counted(countedCash) - theoreticalTotal < 0.01
  {
  }

  /** An empty count reads as zero and never enables closing. */
  lemma EmptyCountIsZero(processing: bool, theoreticalTotal: real)
    ensures Counted("") == 0.0
    ensures !CloseEnabled(processing, "", theoreticalTotal)
  {
    ParseEmpty();
  }

  /**
   * Typing the ledger's theoretical total as `whole.frac` enables closing when nothing is
   * running: the drawer matches the log to the cent.
   */
  lemma CountingTheTotalEnablesClose(whole: string, frac: string, txs: seq<OperationsData.Transaction>, now: string)
    requires whole != [] && AllDigits(whole) && AllDigits(frac)
    requires DigitsValue(whole) as real + FractionValue(frac)
             == OperationsData.Summarize(txs, OperationsData.Open, now).theoreticalTotal as real / 100.0
    ensures CloseEnabled(false, whole + "." + frac,
                         OperationsData.Summarize(txs, OperationsData.Open, now).theoreticalTotal as real / 100.0)
  {
    ParseDecimal(whole, frac);
  }

  /** 623.50 expected and 620.00 counted is a shortage of 3.50; 623.50 counted balances. */
  lemma VerdictExamples()
    ensures DifferenceVerdict(Difference(620.0, 623.5)) == Shortage(3.5)
    ensures DifferenceVerdict(Difference(623.5, 623.5)) == Balanced
    ensures DifferenceVerdict(Difference(623.52, 623.5)) == Surplus(0.02)
  {
  }

  /** The panel's own state; `closeCalls` records each call of `onCloseRegister`. */
  class Panel {
    const theoreticalTotal: real
    var countedCash: string
    var processing: bool
    var closeCalls: seq<real>

    constructor (theoreticalTotal: real)
      ensures this.theoreticalTotal == theoreticalTotal
      ensures countedCash == "" && !processing && closeCalls == []
    {
      this.theoreticalTotal := theoreticalTotal;
      countedCash := "";
      processing := false;
      closeCalls := [];
    }

    /** Typing in the count field. */
    method SetCountedCash(value: string)
      modifies this
      ensures countedCash == value
      ensures processing == old(processing) && closeCalls == old(closeCalls)
    {
      countedCash := value;
    }

    /**
     * `handleClose`, with the delayed completion run straight after: an empty count is
     * refused and nothing is called; otherwise the counted amount is handed to
     * `onCloseRegister`. The handler itself does not check the balance; the button does.
     */
    method HandleClose() returns (closed: bool)
      modifies this
      ensures closed <==> ShowResult(old(countedCash))
      ensures countedCash == old(countedCash)
      ensures !closed ==> closeCalls == old(closeCalls) && processing == old(processing)
      ensures closed ==> closeCalls == old(closeCalls) + [Counted(countedCash)] && !processing
    {
      if !ShowResult(countedCash) {
        return false;
      }
      // `processing` is set while the delayed completion is pending and cleared when it runs
      processing := false;
      closeCalls := closeCalls + [Counted(countedCash)];
      closed := true;
    }
  }
}
