/**
 * The loan repayment schedule shown when a loan is created or displayed: a French
 * (equal-instalment) annuity rounded to cents, with the last instalment corrected so
 * that the loan closes exactly. Money is modelled by exact reals.
 */
module ScheduleCalculator {
  import opened Calendar

  /** One row of the schedule. */
  datatype Installment = Installment(installmentNumber: int, dueDate: Date, amount: real)

  function Pow(x: real, n: nat): real {
    if n == 0 then 1.0 else x * Pow(x, n - 1)
  }

  /** A power of a base above one is above one. */
  lemma {:induction false} PowAboveOne(x: real, n: nat)
    requires x > 1.0 && n >= 1
    ensures Pow(x, n) > 1.0
  {
    if n > 1 {
      PowAboveOne(x, n - 1);
      assert x * Pow(x, n - 1) > 1.0 * Pow(x, n - 1);
    }
  }

  /** `x` is a whole number of cents. */
  predicate IsWholeCents(x: real) {
    (x * 100.0).Floor as real == x * 100.0
  }

  /** `Math.round(x * 100) / 100`: the nearest cent, a half cent rounding up. */
  function RoundCents(x: real): (r: real)
    ensures IsWholeCents(r)
    ensures x - 0.005 < r <= x + 0.005
  {
    var c := (x * 100.0 + 0.5).Floor;
    assert (c as real / 100.0) * 100.0 == c as real;
    c as real / 100.0
  }

  /** Rounding a whole number of cents leaves it unchanged. */
  lemma RoundCentsOfWholeCents(x: real)
    requires IsWholeCents(x)
    ensures RoundCents(x) == x
  {
    var c := (x * 100.0).Floor;
    assert (x * 100.0 + 0.5).Floor == c;
  }

  /** `annualInterestRate / 12 / 100`: the monthly rate as a fraction. */
  function MonthlyRate(annualInterestRate: real): real {
    annualInterestRate / 12.0 / 100.0
  }

  /** The exact annuity instalment `P·r·(1+r)^n / ((1+r)^n − 1)`. */
  function AnnuityPayment(amount: real, rate: real, n: nat): real
    requires rate > 0.0 && n >= 1
  {
    PowAboveOne(1.0 + rate, n);
    (amount * (rate * Pow(1.0 + rate, n))) / (Pow(1.0 + rate, n) - 1.0)
  }

  /**
   * The balance still owed after `k` months in which `payment` was paid: each month the
   * interest is the balance times the rate and the rest of the payment repays principal.
   */
  function BalanceAfter(amount: real, rate: real, payment: real, k: nat): real {
    if k == 0 then amount
    else
      var balance := BalanceAfter(amount, rate, payment, k - 1);
      balance - (payment - balance * rate)
  }

  /** The instalment every month but the last pays: the annuity rounded to cents. */
  function RegularPayment(amount: real, annualInterestRate: real, n: nat): real
    requires annualInterestRate > 0.0 && n >= 1
  {
    RoundCents(AnnuityPayment(amount, MonthlyRate(annualInterestRate), n))
  }

  /** The balance owed at the start of month `i` (1-based) of an `n`-month loan. */
  function BalanceBefore(amount: real, annualInterestRate: real, n: nat, i: nat): real
    requires annualInterestRate > 0.0 && 1 <= i <= n
  {
    BalanceAfter(amount, MonthlyRate(annualInterestRate), RegularPayment(amount, annualInterestRate, n), i - 1)
  }

  /** The interest charged in month `i`. */
  function InterestForMonth(amount: real, annualInterestRate: real, n: nat, i: nat): real
    requires annualInterestRate > 0.0 && 1 <= i <= n
  {
    BalanceBefore(amount, annualInterestRate, n, i) * MonthlyRate(annualInterestRate)
  }

  /** The unrounded payment of month `i`: the regular one, or balance plus interest in the last month. */
  function PaymentForMonth(amount: real, annualInterestRate: real, n: nat, i: nat): real
    requires annualInterestRate > 0.0 && 1 <= i <= n
  {
    if i == n then BalanceBefore(amount, annualInterestRate, n, i) + InterestForMonth(amount, annualInterestRate, n, i)
    else RegularPayment(amount, annualInterestRate, n)
  }

  /** The part of month `i`'s payment that repays principal. */
  function PrincipalForMonth(amount: real, annualInterestRate: real, n: nat, i: nat): real
    requires annualInterestRate > 0.0 && 1 <= i <= n
  {
    PaymentForMonth(amount, annualInterestRate, n, i) - InterestForMonth(amount, annualInterestRate, n, i)
  }

  /** Row `i` of the schedule: numbered `i`, due `i` months after the start, the payment in cents. */
  function ScheduleRow(amount: real, annualInterestRate: real, startDate: Date, n: nat, i: nat): Installment
    requires annualInterestRate > 0.0 && 1 <= i <= n
  {
    Installment(i, AddMonths(startDate, i), RoundCents(PaymentForMonth(amount, annualInterestRate, n, i)))
  }

  /**
   * `calculateLoanSchedule`: one row per instalment, walking the remaining balance month by
   * month. No row for a non-positive count.
   */
  method CalculateLoanSchedule(amount: real, annualInterestRate: real, startDate: Date, installments: int)
    returns (schedule: seq<Installment>)
    requires annualInterestRate > 0.0
    ensures |schedule| == if installments > 0 then installments else 0
    ensures forall k :: 0 <= k < |schedule| ==>
              schedule[k] == ScheduleRow(amount, annualInterestRate, startDate, installments, k + 1)
  {
    var monthlyInterestRate := annualInterestRate / 12.0 / 100.0;
    schedule := [];
    if installments >= 1 {
      var roundedMonthlyPayment := RoundCents(AnnuityPayment(amount, monthlyInterestRate, installments));
      var remainingBalance := amount;
      var i := 1;
      while i <= installments
        invariant 1 <= i <= installments + 1
        invariant |schedule| == i - 1
        invariant i <= installments ==>
                    remainingBalance == BalanceBefore(amount, annualInterestRate, installments, i)
        invariant i > installments ==> remainingBalance == 0.0
        invariant forall k :: 0 <= k < i - 1 ==>
                    schedule[k] == ScheduleRow(amount, annualInterestRate, startDate, installments, k + 1)
      {
        var interestForMonth := remainingBalance * monthlyInterestRate;
        var paymentForMonth := roundedMonthlyPayment;
        if i == installments {
          paymentForMonth := remainingBalance + interestForMonth;
        }
        assert paymentForMonth == PaymentForMonth(amount, annualInterestRate, installments, i);
        var principalForMonth := paymentForMonth - interestForMonth;
        remainingBalance := remainingBalance - principalForMonth;
        schedule := schedule + [Installment(i, AddMonths(startDate, i), RoundCents(paymentForMonth))];
        i := i + 1;
      }
    }
  }

  // ---------------------------------------------------------------------------
  // What the schedule promises

  /** Every month but the last pays the same amount: the annuity rounded to cents. */
  lemma RegularRowsPayTheRoundedAnnuity(amount: real, annualInterestRate: real, startDate: Date, n: nat, i: nat)
    requires annualInterestRate > 0.0 && 1 <= i < n
    ensures ScheduleRow(amount, annualInterestRate, startDate, n, i).amount
            == RoundCents(AnnuityPayment(amount, MonthlyRate(annualInterestRate), n))
  {
    RoundCentsOfWholeCents(RegularPayment(amount, annualInterestRate, n));
  }

  /** Every amount in the schedule is a whole number of cents, within half a cent of the payment. */
  lemma RowAmountsAreCents(amount: real, annualInterestRate: real, startDate: Date, n: nat, i: nat)
    requires annualInterestRate > 0.0 && 1 <= i <= n
    ensures IsWholeCents(ScheduleRow(amount, annualInterestRate, startDate, n, i).amount)
    ensures var p := PaymentForMonth(amount, annualInterestRate, n, i);
            p - 0.005 < ScheduleRow(amount, annualInterestRate, startDate, n, i).amount <= p + 0.005
  {
  }

  /** Consecutive rows fall due one calendar month apart, the first one month after the start. */
  lemma RowsFallDueMonthly(amount: real, annualInterestRate: real, startDate: Date, n: nat, i: nat)
    requires annualInterestRate > 0.0 && 1 <= i <= n
    ensures MonthIndex(ScheduleRow(amount, annualInterestRate, startDate, n, i).dueDate) == MonthIndex(startDate) + i
    ensures i < n ==>
      MonthIndex(ScheduleRow(amount, annualInterestRate, startDate, n, i + 1).dueDate)
      == MonthIndex(ScheduleRow(amount, annualInterestRate, startDate, n, i).dueDate) + 1
  {
  }

  /** Principal repaid over the first `k` months. */
  function PrincipalRepaid(amount: real, annualInterestRate: real, n: nat, k: nat): real
    requires annualInterestRate > 0.0 && k <= n
  {
    if k == 0 then 0.0
    else PrincipalRepaid(amount, annualInterestRate, n, k - 1) + PrincipalForMonth(amount, annualInterestRate, n, k)
  }

  /** Before the last month, the principal repaid so far is the loan minus what is still owed. */
  lemma {:induction false} PrincipalRepaidSoFar(amount: real, annualInterestRate: real, n: nat, k: nat)
    requires annualInterestRate > 0.0 && k < n
    ensures PrincipalRepaid(amount, annualInterestRate, n, k)
            == amount - BalanceBefore(amount, annualInterestRate, n, k + 1)
  {
    if k > 0 {
      PrincipalRepaidSoFar(amount, annualInterestRate, n, k - 1);
      var rate := MonthlyRate(annualInterestRate);
      var payment := RegularPayment(amount, annualInterestRate, n);
      var balance := BalanceAfter(amount, rate, payment, k - 1);
      var interest := balance * rate;
      assert BalanceBefore(amount, annualInterestRate, n, k) == balance;
      assert InterestForMonth(amount, annualInterestRate, n, k) == interest;
      assert PrincipalForMonth(amount, annualInterestRate, n, k) == payment - interest;
      assert BalanceBefore(amount, annualInterestRate, n, k + 1) == balance - (payment - interest);
    }
  }

  /**
   * The loan closes exactly: the principal portions of all `n` instalments add up to the
   * amount lent, and the balance after the last instalment is zero.
   */
  lemma PrincipalsRepayTheLoan(amount: real, annualInterestRate: real, n: nat)
    requires annualInterestRate > 0.0 && n >= 1
    ensures PrincipalRepaid(amount, annualInterestRate, n, n) == amount
    ensures BalanceBefore(amount, annualInterestRate, n, n) - PrincipalForMonth(amount, annualInterestRate, n, n) == 0.0
  {
    PrincipalRepaidSoFar(amount, annualInterestRate, n, n - 1);
  }

  /**
   * The closed form of the balance: `r·B_k = P·r·(1+r)^k − p·((1+r)^k − 1)`.
   */
  lemma {:induction false} BalanceClosedForm(amount: real, rate: real, payment: real, k: nat)
    ensures rate * BalanceAfter(amount, rate, payment, k)
            == amount * rate * Pow(1.0 + rate, k) - payment * (Pow(1.0 + rate, k) - 1.0)
  {
    if k > 0 {
      BalanceClosedForm(amount, rate, payment, k - 1);
      var b := BalanceAfter(amount, rate, payment, k - 1);
      var q := Pow(1.0 + rate, k - 1);
      assert Pow(1.0 + rate, k) == (1.0 + rate) * q;
      assert rate * BalanceAfter(amount, rate, payment, k) == (rate * b) * (1.0 + rate) - payment * rate;
      ClosedFormStep(amount * rate, payment, q, rate);
    }
  }

  /** The algebra of one month in the closed form of the balance. */
  lemma ClosedFormStep(a: real, p: real, q: real, r: real)
    ensures (a * q - p * (q - 1.0)) * (1.0 + r) - p * r == a * ((1.0 + r) * q) - p * ((1.0 + r) * q - 1.0)
  {
  }

  /**
   * Why the annuity formula is the right one: paying the exact, unrounded annuity every
   * month leaves nothing owed after `n` months. The last-instalment correction only
   * absorbs what rounding the annuity to cents leaves over.
   */
  lemma ExactAnnuityClosesTheLoan(amount: real, rate: real, n: nat)
    requires rate > 0.0 && n >= 1
    ensures BalanceAfter(amount, rate, AnnuityPayment(amount, rate, n), n) == 0.0
  {
    var p := AnnuityPayment(amount, rate, n);
    var q := Pow(1.0 + rate, n);
    PowAboveOne(1.0 + rate, n);
    BalanceClosedForm(amount, rate, p, n);
    assert p * (q - 1.0) == amount * rate * q;
    assert rate * BalanceAfter(amount, rate, p, n) == 0.0;
  }

  /** 1000 lent at 24% a year over three months: the regular instalment is 346.75. */
  lemma RegularPaymentExample()
    ensures RegularPayment(1000.0, 24.0, 3) == 346.75
  {
    assert MonthlyRate(24.0) == 0.02;
    assert Pow(1.02, 3) == 1.061208;
    var a := AnnuityPayment(1000.0, 0.02, 3);
    assert a == 21.22416 / 0.061208;
    assert 34675.0 <= a * 100.0 + 0.5 < 34676.0;
    assert (a * 100.0 + 0.5).Floor == 34675;
  }
}
