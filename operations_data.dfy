/**
 * Cash rounding and the local cash-register ledger kept in the browser: a log of
 * transactions and an open/closed status, and the summary folded from that log.
 * Money is counted in whole cents.
 */
module OperationsData {
  import opened Wrappers
  import opened Lists

  // ---------------------------------------------------------------------------
  // Cash rounding

  /** A cash amount rounded to the ten cents a drawer can pay out, and the change applied. */
  datatype Rounding = Rounding(rounded: int, adjustment: int)

  /**
   * `calculateRounding`: the nearest multiple of ten cents, a remainder of exactly five
   * cents rounding up (`Math.round(amount * 10) / 10`).
   */
  function CalculateRounding(amount: int): (r: Rounding)
    ensures r.rounded % 10 == 0
    ensures r.adjustment == r.rounded - amount
    ensures -5 < r.adjustment <= 5
  {
    var rounded := 10 * ((amount + 5) / 10);
    Rounding(rounded, rounded - amount)
  }

  /**
   * The rounded amount is the only multiple of ten cents within (−5, +5] cents of the
   * amount, hence the nearest one, and of two equally near the upper one.
   */
  lemma RoundingIsNearestTenCents(amount: int, m: int)
    requires m % 10 == 0
    ensures -5 < m - amount <= 5 ==> m == CalculateRounding(amount).rounded
    ensures var d := CalculateRounding(amount).adjustment;
            (if d < 0 then -d else d) <= (if m - amount < 0 then amount - m else m - amount)
  {
    var r := CalculateRounding(amount).rounded;
    assert (m - r) % 10 == 0;
  }

  /** Rounding a rounded amount changes nothing: the adjustment is zero the second time. */
  lemma RoundingIdempotent(amount: int)
    ensures var once := CalculateRounding(amount);
            CalculateRounding(once.rounded) == Rounding(once.rounded, 0)
  {
  }

  /** 10.25 becomes 10.30 (+0.05), 10.23 becomes 10.20 (−0.03), 10.27 becomes 10.30 (+0.03). */
  lemma RoundingExamples()
    ensures CalculateRounding(1025) == Rounding(1030, 5)
    ensures CalculateRounding(1023) == Rounding(1020, -3)
    ensures CalculateRounding(1027) == Rounding(1030, 3)
    ensures CalculateRounding(1020) == Rounding(1020, 0)
  {
  }

  // ---------------------------------------------------------------------------
  // The ledger

  /** `'PAGO' | 'APERTURA' | 'CIERRE'`. */
  datatype TransactionType = Pago | Apertura | Cierre

  /** One entry of the log; amounts in cents. */
  datatype Transaction = Transaction(
    id: int,
    timestamp: string,
    clientName: string,
    clientDni: string,
    kind: TransactionType,
    paymentMethod: string,
    systemAmount: int,
    roundingAdjustment: int,
    realAmount: int)

  datatype Status = Open | Closed

  /** What the cash-register screen shows; amounts in cents. */
  datatype CashRegisterSummary = CashRegisterSummary(
    openingBalance: int,
    cashEntries: int,
    roundingAdjustment: int,
    digitalEntries: int,
    theoreticalTotal: int,
    transactions: seq<Transaction>,
    date: string,
    status: Status)

  const Efectivo := "EFECTIVO"
  const DigitalMethods := ["YAPE", "PLIN", "TARJETA"]

  predicate IsCashPayment(t: Transaction) {
    t.paymentMethod == Efectivo && t.kind == Pago
  }

  predicate IsDigitalPayment(t: Transaction) {
    t.paymentMethod in DigitalMethods && t.kind == Pago
  }

  /** `txs.reduce((sum, t) => sum + amountOf(t), 0)`. */
  function Sum(txs: seq<Transaction>, amountOf: Transaction -> int): int {
    if txs == [] then 0 else amountOf(txs[0]) + Sum(txs[1..], amountOf)
  }

  /** The amounts of the entries that `counted` selects, summed in one pass over the log. */
  function Total(txs: seq<Transaction>, counted: Transaction -> bool, amountOf: Transaction -> int): int {
    if txs == [] then 0
    else (if counted(txs[0]) then amountOf(txs[0]) else 0) + Total(txs[1..], counted, amountOf)
  }

  /** Summing in one pass is filtering and then reducing, as the summary is written. */
  lemma {:induction false} TotalIsSumOfFiltered(txs: seq<Transaction>, counted: Transaction -> bool, amountOf: Transaction -> int)
    ensures Total(txs, counted, amountOf) == Sum(Filter(txs, counted), amountOf)
  {
    if txs != [] {
      TotalIsSumOfFiltered(txs[1..], counted, amountOf);
      var rest := Filter(txs[1..], counted);
      if counted(txs[0]) {
        assert ([txs[0]] + rest)[0] == txs[0] && ([txs[0]] + rest)[1..] == rest;
      }
    }
  }

  /** The total of a log extended at the end is the old total plus the new entry's share. */
  lemma {:induction false} TotalAppend(txs: seq<Transaction>, t: Transaction, counted: Transaction -> bool, amountOf: Transaction -> int)
    ensures Total(txs + [t], counted, amountOf)
            == Total(txs, counted, amountOf) + (if counted(t) then amountOf(t) else 0)
  {
    if txs == [] {
      assert txs + [t] == [t];
    } else {
      assert (txs + [t])[1..] == txs[1..] + [t];
      TotalAppend(txs[1..], t, counted, amountOf);
    }
  }

  function RealAmount(t: Transaction): int { t.realAmount }

  function RoundingAdjustment(t: Transaction): int { t.roundingAdjustment }

  function CashEntries(txs: seq<Transaction>): int {
    Total(txs, IsCashPayment, RealAmount)
  }

  function DigitalEntries(txs: seq<Transaction>): int {
    Total(txs, IsDigitalPayment, RealAmount)
  }

  function CashRounding(txs: seq<Transaction>): int {
    Total(txs, IsCashPayment, RoundingAdjustment)
  }

  /** `txs.find(t => t.type === 'APERTURA')`, as the position of the first opening. */
  function FindOpening(txs: seq<Transaction>): (r: Option<nat>)
    ensures r.Some? ==> r.value < |txs| && txs[r.value].kind == Apertura
    ensures r.Some? ==> forall j :: 0 <= j < r.value ==> txs[j].kind != Apertura
    ensures r.None? ==> forall j :: 0 <= j < |txs| ==> txs[j].kind != Apertura
  {
    if txs == [] then None
    else if txs[0].kind == Apertura then Some(0)
    else match FindOpening(txs[1..])
      case None => None
      case Some(k) => Some(k + 1)
  }

  /** The `realAmount` of the first opening, or 0 when the log holds none. */
  function OpeningBalance(txs: seq<Transaction>): int {
    match FindOpening(txs)
    case Some(k) => txs[k].realAmount
    case None => 0
  }

  /** `getCashRegisterSummary` over a log and a status; `now` dates a log without an opening. */
  function Summarize(txs: seq<Transaction>, status: Status, now: string): (r: CashRegisterSummary)
    ensures r.openingBalance == if FindOpening(txs).Some? then txs[FindOpening(txs).value].realAmount else 0
    ensures r.cashEntries == Sum(Filter(txs, IsCashPayment), RealAmount)
    ensures r.roundingAdjustment == Sum(Filter(txs, IsCashPayment), RoundingAdjustment)
    ensures r.digitalEntries == Sum(Filter(txs, IsDigitalPayment), RealAmount)
    ensures r.theoreticalTotal == r.openingBalance + r.cashEntries
    ensures r.transactions == txs && r.status == status
    ensures r.date == if FindOpening(txs).Some? && txs[FindOpening(txs).value].timestamp != ""
                      then txs[FindOpening(txs).value].timestamp else now
  {
    var opening := FindOpening(txs);
    TotalIsSumOfFiltered(txs, IsCashPayment, RealAmount);
    TotalIsSumOfFiltered(txs, IsCashPayment, RoundingAdjustment);
    TotalIsSumOfFiltered(txs, IsDigitalPayment, RealAmount);
    CashRegisterSummary(
      OpeningBalance(txs),
      CashEntries(txs),
      CashRounding(txs),
      DigitalEntries(txs),
      OpeningBalance(txs) + CashEntries(txs),
      txs,
      if opening.Some? && txs[opening.value].timestamp != "" then txs[opening.value].timestamp else now,
      status)
  }

  /** `openCashRegister`'s entry: an opening in cash of the initial balance, with no rounding. */
  function OpeningTransaction(initialBalance: int, id: int, timestamp: string): (t: Transaction)
    ensures t.kind == Apertura && t.paymentMethod == Efectivo
    ensures t.systemAmount == initialBalance && t.realAmount == initialBalance
    ensures t.roundingAdjustment == 0
  {
    Transaction(id, timestamp, "Apertura de Caja", "-", Apertura, Efectivo, initialBalance, 0, initialBalance)
  }

  /**
   * The register as kept in the browser's storage: the transaction log and the status key
   * (a missing key reads as closed everywhere it is read).
   */
  class CashRegister {
    var transactions: seq<Transaction>
    var status: Status

    /** The register as found in storage. */
    constructor (stored: seq<Transaction>, storedStatus: Status)
      ensures transactions == stored && status == storedStatus
    {
      transactions := stored;
      status := storedStatus;
    }

    /** `isCashRegisterOpen`: only the stored status `open` counts as open. */
    predicate IsOpen()
      reads this
      ensures IsOpen() <==> status != Closed
    {
      status == Open
    }

    /**
     * `openCashRegister`: a closed register restarts its log with the opening; an open one
     * appends a further opening. It never fails and leaves the register open.
     * `id` and `timestamp` stand for `Date.now()` and the clock.
     */
    method OpenRegister(initialBalance: int, operatorId: string, id: int, timestamp: string)
      returns (openingTx: Transaction)
      modifies this
      ensures openingTx == OpeningTransaction(initialBalance, id, timestamp)
      ensures old(status) != Open ==> transactions == [openingTx]
      ensures old(status) == Open ==> transactions == old(transactions) + [openingTx]
      ensures IsOpen()
    {
      openingTx := OpeningTransaction(initialBalance, id, timestamp);
      if status != Open {
        transactions := [openingTx];
      } else {
        transactions := transactions + [openingTx];
      }
      status := Open;
    }

    /** `closeCashRegister`: only the status changes; nothing is recorded. */
    method CloseRegister()
      modifies this
      ensures status == Closed && !IsOpen()
      ensures transactions == old(transactions)
    {
      status := Closed;
    }

    /** `getCashRegisterSummary`. */
    function Summary(now: string): (r: CashRegisterSummary)
      reads this
      ensures r.transactions == transactions
      ensures r.status == Open <==> IsOpen()
      ensures r.theoreticalTotal == r.openingBalance + Sum(Filter(transactions, IsCashPayment), RealAmount)
    {
      Summarize(transactions, status, now)
    }
  }

  // ---------------------------------------------------------------------------
  // What the summary promises

  /** A register opened from closed reports the initial balance and nothing else. */
  lemma SummaryAfterFreshOpening(initialBalance: int, id: int, timestamp: string, now: string)
    ensures var s := Summarize([OpeningTransaction(initialBalance, id, timestamp)], Open, now);
            s.openingBalance == initialBalance && s.cashEntries == 0 && s.digitalEntries == 0
            && s.roundingAdjustment == 0 && s.theoreticalTotal == initialBalance
            && s.date == if timestamp != "" then timestamp else now
  {
    var t := OpeningTransaction(initialBalance, id, timestamp);
    assert [t][1..] == [];
    assert !IsCashPayment(t) && !IsDigitalPayment(t);
    assert Total([t], IsCashPayment, RealAmount) == 0;
    assert Total([t], IsDigitalPayment, RealAmount) == 0;
    assert Total([t], IsCashPayment, RoundingAdjustment) == 0;
  }

  /** Appending keeps the first opening where it was, if there was one. */
  lemma {:induction false} FindOpeningAppend(txs: seq<Transaction>, t: Transaction)
    ensures FindOpening(txs).Some? ==> FindOpening(txs + [t]) == FindOpening(txs)
    ensures FindOpening(txs).None? && t.kind == Apertura ==> FindOpening(txs + [t]) == Some(|txs|)
  {
    if txs != [] {
      assert (txs + [t])[1..] == txs[1..] + [t];
      FindOpeningAppend(txs[1..], t);
    }
  }

  /**
   * Opening an already open register changes no total: the second opening is not the first
   * one, and only payments are summed. The theoretical total still starts from the first
   * opening's balance.
   */
  lemma ReopeningKeepsTotals(txs: seq<Transaction>, initialBalance: int, id: int, timestamp: string, now: string)
    requires FindOpening(txs).Some?
    ensures var t := OpeningTransaction(initialBalance, id, timestamp);
            var before, after := Summarize(txs, Open, now), Summarize(txs + [t], Open, now);
            after.openingBalance == before.openingBalance
            && after.cashEntries == before.cashEntries
            && after.digitalEntries == before.digitalEntries
            && after.roundingAdjustment == before.roundingAdjustment
            && after.theoreticalTotal == before.theoreticalTotal
  {
    var t := OpeningTransaction(initialBalance, id, timestamp);
    FindOpeningAppend(txs, t);
    TotalAppend(txs, t, IsCashPayment, RealAmount);
    TotalAppend(txs, t, IsDigitalPayment, RealAmount);
    TotalAppend(txs, t, IsCashPayment, RoundingAdjustment);
    assert (txs + [t])[FindOpening(txs).value] == txs[FindOpening(txs).value];
  }

  /** The summary's totals are the one-pass totals of the log, and its opening balance the first opening's. */
  lemma SummaryTotals(txs: seq<Transaction>, status: Status, now: string)
    ensures var s := Summarize(txs, status, now);
            s.openingBalance == OpeningBalance(txs) && s.cashEntries == CashEntries(txs)
            && s.roundingAdjustment == CashRounding(txs) && s.digitalEntries == DigitalEntries(txs)
            && s.theoreticalTotal == OpeningBalance(txs) + CashEntries(txs)
  {
  }

  /** Appending an entry that is not an opening keeps the opening balance. */
  lemma OpeningBalanceAppend(txs: seq<Transaction>, t: Transaction)
    requires t.kind != Apertura
    ensures OpeningBalance(txs + [t]) == OpeningBalance(txs)
  {
    FindOpeningAppend(txs, t);
    if FindOpening(txs).Some? {
      assert (txs + [t])[FindOpening(txs).value] == txs[FindOpening(txs).value];
    } else {
      assert FindOpening(txs + [t]).None? by {
        forall j | 0 <= j < |txs + [t]| ensures (txs + [t])[j].kind != Apertura {
          if j < |txs| {
            assert (txs + [t])[j] == txs[j];
          }
        }
      }
    }
  }

  /** No payment is both in cash and digital. */
  lemma CashIsNotDigital(t: Transaction)
    ensures !(IsCashPayment(t) && IsDigitalPayment(t))
  {
    if t.paymentMethod == Efectivo {
      assert Efectivo[0] == 'E';
      assert forall m :: m in DigitalMethods ==> m[0] != 'E';
    }
  }

  /** A cash payment adds its real amount to the drawer's theoretical total and its rounding to the rounding total. */
  lemma CashPaymentAddsToDrawer(txs: seq<Transaction>, t: Transaction, now: string)
    requires IsCashPayment(t)
    ensures var before, after := Summarize(txs, Open, now), Summarize(txs + [t], Open, now);
            after.theoreticalTotal == before.theoreticalTotal + t.realAmount
            && after.cashEntries == before.cashEntries + t.realAmount
            && after.roundingAdjustment == before.roundingAdjustment + t.roundingAdjustment
            && after.digitalEntries == before.digitalEntries
  {
    CashIsNotDigital(t);
    SummaryTotals(txs, Open, now);
    SummaryTotals(txs + [t], Open, now);
    OpeningBalanceAppend(txs, t);
    TotalAppend(txs, t, IsCashPayment, RealAmount);
    TotalAppend(txs, t, IsDigitalPayment, RealAmount);
    TotalAppend(txs, t, IsCashPayment, RoundingAdjustment);
  }

  /** A digital payment (Yape, Plin, card) is counted as digital and never reaches the drawer's total. */
  lemma DigitalPaymentSkipsDrawer(txs: seq<Transaction>, t: Transaction, now: string)
    requires IsDigitalPayment(t)
    ensures var before, after := Summarize(txs, Open, now), Summarize(txs + [t], Open, now);
            after.theoreticalTotal == before.theoreticalTotal
            && after.cashEntries == before.cashEntries
            && after.roundingAdjustment == before.roundingAdjustment
            && after.digitalEntries == before.digitalEntries + t.realAmount
  {
    CashIsNotDigital(t);
    assert !IsCashPayment(t) && t.kind != Apertura;
    SummaryTotals(txs, Open, now);
    SummaryTotals(txs + [t], Open, now);
    OpeningBalanceAppend(txs, t);
    TotalAppend(txs, t, IsCashPayment, RealAmount);
    TotalAppend(txs, t, IsDigitalPayment, RealAmount);
    TotalAppend(txs, t, IsCashPayment, RoundingAdjustment);
  }
}
