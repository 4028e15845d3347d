/**
 * The payment modal of the operations screen: suggested amounts, the guards on a cash
 * payment, and the input → success steps. Amounts are exact reals (units of the currency).
 */
module TransactionModal {
  import opened Wrappers
  import opened Text
  import OperationsData

  /** One instalment of a client's account; only the amount due matters here. */
  datatype AccountInstallment = AccountInstallment(numeroCuota: int, totalAPagar: real)

  /** A client's account; a missing or unreadable pending debt is None. */
  datatype ClientAccount = ClientAccount(prestamoId: int, deudaPendienteTotal: Option<real>, cuotas: seq<AccountInstallment>)

  /** The request sent to the payment service. */
  datatype PagoRequest = PagoRequest(prestamoId: int, monto: real, metodoPago: string)

  /** The payment service's answer. */
  datatype PagoResponse = PagoResponse(id: int, status: string, montoAplicado: real)

  datatype Suggestion = Suggestion(caption: string, value: real)

  datatype Step = Input | Success

  datatype CashRejection = InvalidAmount | ExceedsDebt

  /** `account?.deudaPendienteTotal || 0`. */
  function TotalPendingDebt(account: ClientAccount): real {
    account.deudaPendienteTotal.GetOr(0.0)
  }

  /** `parseFloat(amount) || 0`. */
  function ParsedAmount(amount: string): real {
    ParseFloat(amount).GetOr(0.0)
  }

  /** What the cash preview shows: the amount to collect and the change against the typed amount. */
  datatype CashPreview = CashPreview(rounded: real, adjustment: real)

  /** `Math.round(y * 100) / 100` on a non-negative `y`. */
  function RoundHalfUpCents(y: real): (r: real)
    ensures (r * 100.0).Floor as real == r * 100.0
    ensures y - 0.005 < r <= y + 0.005
  {
    var cents := (y * 100.0 + 0.5).Floor;
    assert cents as real / 100.0 * 100.0 == cents as real;
    cents as real / 100.0
  }

  /** `Number(y.toFixed(2))`: the nearest cent, halves away from zero. */
  function ToFixed2(y: real): (r: real)
    ensures (r * 100.0).Floor as real == r * 100.0
    ensures y - 0.005 <= r <= y + 0.005
  {
    if y < 0.0 then
      var a := RoundHalfUpCents(-y);
      assert (-a * 100.0).Floor == -((a * 100.0).Floor);
      -a
    else RoundHalfUpCents(y)
  }

  /**
   * `calculateRounding` applied to the typed amount: the nearest multiple of 0.10 (halves
   * up), and the difference to it fixed to two decimals. It is shown, never sent.
   */
  function Preview(x: real): (r: CashPreview)
    ensures (r.rounded * 10.0).Floor as real == r.rounded * 10.0
    ensures x - 0.05 < r.rounded <= x + 0.05
    ensures -0.005 <= r.adjustment - (r.rounded - x) <= 0.005
    ensures (r.adjustment * 100.0).Floor as real == r.adjustment * 100.0
  {
    var tenths := (x * 10.0 + 0.5).Floor;
    var rounded := tenths as real / 10.0;
    assert rounded * 10.0 == tenths as real;
    CashPreview(rounded, ToFixed2(rounded - x))
  }

  /**
   * On an amount of whole cents the preview is the ledger's cash rounding of those cents:
   * the same amount to collect and the same change.
   */
  lemma PreviewOfWholeCents(x: real, cents: int)
    requires x * 100.0 == cents as real
    ensures Preview(x).rounded * 100.0 == OperationsData.CalculateRounding(cents).rounded as real
    ensures Preview(x).adjustment * 100.0 == OperationsData.CalculateRounding(cents).adjustment as real
  {
    var q := (cents + 5) / 10;
    var m := (cents + 5) % 10;
    assert cents + 5 == 10 * q + m;
    assert x * 10.0 + 0.5 == q as real + m as real / 10.0;
    assert (x * 10.0 + 0.5).Floor == q;
    var d := 10 * q - cents;
    var y := Preview(x).rounded - x;
    assert y * 100.0 == d as real;
    WholeCentsFixed(y, d);
  }

  /** Fixing an amount that already is a whole number of cents to two decimals keeps it. */
  lemma WholeCentsFixed(y: real, d: int)
    requires y * 100.0 == d as real
    ensures ToFixed2(y) * 100.0 == d as real
  {
    if y < 0.0 {
      assert (-y * 100.0 + 0.5).Floor == -d;
    } else {
      assert (y * 100.0 + 0.5).Floor == d;
    }
  }

  /** `cuotas.find(c => c.totalAPagar > 0)`, as a position: the first instalment still owing. */
  function FirstOwing(cuotas: seq<AccountInstallment>): (r: Option<nat>)
    ensures r.Some? ==> r.value < |cuotas| && cuotas[r.value].totalAPagar > 0.0
    ensures r.Some? ==> forall j :: 0 <= j < r.value ==> cuotas[j].totalAPagar <= 0.0
    ensures r.None? ==> forall j :: 0 <= j < |cuotas| ==> cuotas[j].totalAPagar <= 0.0
  {
    if cuotas == [] then None
    else if cuotas[0].totalAPagar > 0.0 then Some(0)
    else match FirstOwing(cuotas[1..])
      case None => None
      case Some(k) => Some(k + 1)
  }

  /**
   * `suggestedAmounts`: "Deuda Total" when some debt is pending, with "Cuota Actual" (the
   * first instalment still owing) put in front of it when there is one.
   */
  method SuggestedAmounts(account: ClientAccount) returns (suggestions: seq<Suggestion>)
    ensures var debt := TotalPendingDebt(account);
            var total := if debt > 0.0 then [Suggestion("Deuda Total", debt)] else [];
            match FirstOwing(account.cuotas)
            case None => suggestions == total
            case Some(k) => suggestions == [Suggestion("Cuota Actual", account.cuotas[k].totalAPagar)] + total
  {
    var debt := TotalPendingDebt(account);
    suggestions := [];
    if debt > 0.0 {
      suggestions := [Suggestion("Deuda Total", debt)];
    }
    var current := FirstOwing(account.cuotas);
    if current.Some? {
      suggestions := [Suggestion("Cuota Actual", account.cuotas[current.value].totalAPagar)] + suggestions;
    }
  }

  /** The guards of `handleCashProcess`, in order: a positive amount, at most 0.50 above the pending debt. */
  function CheckCashPayment(parsedAmount: real, totalPendingDebt: real): (r: Option<CashRejection>)
    ensures r.None? <==> 0.0 < parsedAmount <= totalPendingDebt + 0.5
    ensures r == Some(InvalidAmount) <==> parsedAmount <= 0.0
  {
    if parsedAmount <= 0.0 then Some(InvalidAmount)
    else if parsedAmount > totalPendingDebt + 0.5 then Some(ExceedsDebt)
    else None
  }

  /** An empty or unreadable amount is zero and always refused. */
  lemma UnreadableAmountRefused(amount: string, account: ClientAccount)
    requires ParseFloat(amount).None?
    ensures ParsedAmount(amount) == 0.0
    ensures CheckCashPayment(ParsedAmount(amount), TotalPendingDebt(account)) == Some(InvalidAmount)
  {
  }

  /** The modal's state; `open` is the parent's flag that `onClose` clears. */
  class Modal {
    const account: ClientAccount
    var open: bool
    var step: Step
    var amount: string
    var tab: string
    var processing: bool
    var paymentResult: Option<PagoResponse>
    var successNotices: nat

    constructor (account: ClientAccount)
      ensures this.account == account && open
      ensures step == Input && amount == "" && tab == "EFECTIVO"
      ensures !processing && paymentResult == None && successNotices == 0
    {
      this.account := account;
      open := true;
      step := Input;
      amount := "";
      tab := "EFECTIVO";
      processing := false;
      paymentResult := None;
      successNotices := 0;
    }

    /**
     * `handleCashProcess`. A refused amount sends nothing and changes nothing. Otherwise the
     * parsed amount, unrounded, is sent as a cash payment; `response` is the service's answer
     * (None when it fails). Success records the answer, moves to the success step and
     * notifies the parent; failure leaves the step as it was.
     */
    method HandleCashProcess(response: Option<PagoResponse>)
      returns (rejection: Option<CashRejection>, sent: Option<PagoRequest>)
      modifies this
      ensures rejection == CheckCashPayment(ParsedAmount(amount), TotalPendingDebt(account))
      ensures rejection.Some? ==> sent == None
      ensures rejection.None? ==> sent == Some(PagoRequest(account.prestamoId, ParsedAmount(amount), "EFECTIVO"))
      ensures amount == old(amount) && tab == old(tab) && open == old(open)
      ensures rejection.None? ==> !processing
      ensures rejection.Some? ==> processing == old(processing)
      ensures rejection.None? && response.Some? ==>
                step == Success && paymentResult == response && successNotices == old(successNotices) + 1
      ensures rejection.Some? || response.None? ==>
                step == old(step) && paymentResult == old(paymentResult) && successNotices == old(successNotices)
    {
      var parsedAmount := ParsedAmount(amount);
      var totalPendingDebt := TotalPendingDebt(account);
      rejection := CheckCashPayment(parsedAmount, totalPendingDebt);
      if rejection.Some? {
        return rejection, None;
      }
      processing := true;
      sent := Some(PagoRequest(account.prestamoId, parsedAmount, "EFECTIVO"));
      if response.Some? {
        paymentResult := response;
        step := Success;
        successNotices := successNotices + 1;
      }
      processing := false;
    }

    /** Typing in the amount field: only the amount changes. */
    method SetAmount(typed: string)
      modifies this
      ensures amount == typed
      ensures open == old(open) && step == old(step) && tab == old(tab) && processing == old(processing)
      ensures paymentResult == old(paymentResult) && successNotices == old(successNotices)
    {
      amount := typed;
    }

    /** `handleNewOperation`: back to a blank input step, then close. */
    method HandleNewOperation()
      modifies this
      ensures step == Input && amount == "" && tab == "EFECTIVO" && paymentResult == None
      ensures !open
      ensures processing == old(processing) && successNotices == old(successNotices)
    {
      step := Input;
      amount := "";
      tab := "EFECTIVO";
      paymentResult := None;
      open := false;
    }

    /** `handleClose`: from the success step it resets the modal; from input it only closes. */
    method HandleClose()
      modifies this
      ensures !open
      ensures old(step) == Success ==>
                step == Input && amount == "" && tab == "EFECTIVO" && paymentResult == None
      ensures old(step) == Input ==>
                step == old(step) && amount == old(amount) && tab == old(tab) && paymentResult == old(paymentResult)
      ensures processing == old(processing) && successNotices == old(successNotices)
    {
      if step == Success {
        HandleNewOperation();
      } else {
        open := false;
      }
    }
  }
}
