/**
 * app/dashboard/loans/new/page.tsx: the new-loan-application form, its
 * schema and default values, the monthly payment it computes on submit,
 * and the payload it posts.
 *
 * The form holds every field (the defaults fill them); the term and the
 * credit score are integers because their inputs are read with
 * `parseInt(...) || 0`, the other numbers with `parseFloat(...) || 0`.
 */
module LoanApplicationForm {

  import opened Wrappers
  import opened Zod
  import opened JsString
  import LoanTypes

  const EmploymentOptions: set<string> := {"employed", "self_employed", "unemployed", "retired", "student"}

  datatype LoanFormData = LoanFormData(
    vehicleId: string,
    loanAmount: real,
    interestRate: real,
    loanTermMonths: int,
    downPayment: real,
    applicantName: string,
    applicantEmail: string,
    applicantPhone: string,
    creditScore: int,
    annualIncome: real,
    employmentStatus: string,
    notes: Option<string>)

  /** The page's `loanApplicationSchema`. */
  predicate LoanFormSchema(d: LoanFormData, f: Formats) {
    && |d.vehicleId| >= 1
    && d.loanAmount >= 0.0
    && d.interestRate >= 0.0
    && d.loanTermMonths >= 1
    && d.downPayment >= 0.0
    && |d.applicantName| >= 1
    && f.email(d.applicantEmail)
    && |d.applicantPhone| >= 1
    && 300 <= d.creditScore <= 850
    && d.annualIncome >= 0.0
    && d.employmentStatus in EmploymentOptions
  }

  const DefaultValues: LoanFormData :=
    LoanFormData("", 0.0, 0.0, 0, 0.0, "", "", "", 700, 0.0, "employed", Some(""))

  /**
   * The defaults cannot be submitted unchanged: the vehicle, the term,
   * the name and the phone all fail, while the credit score and the
   * employment status pass.
   */
  lemma DefaultsFailSchema(f: Formats)
    ensures !LoanFormSchema(DefaultValues, f)
    ensures DefaultValues.loanTermMonths < 1 && |DefaultValues.vehicleId| < 1
    ensures 300 <= DefaultValues.creditScore <= 850 && DefaultValues.employmentStatus in EmploymentOptions
  {
  }

  /**
   * The form's employment values are lower-case and the API's are
   * upper-case: none of the form's values is accepted by the loan
   * application schemas, and "student" has no counterpart even when
   * upper-cased.
   */
  lemma FormEmploymentNotInApiEnum()
    ensures forall s :: s in EmploymentOptions ==> s !in LoanTypes.EmploymentStatusEnum
    ensures ToUpper("student") !in LoanTypes.EmploymentStatusEnum
    ensures ToUpper("self_employed") in LoanTypes.EmploymentStatusEnum
  {
    assert ToUpper("student") == "STUDENT";
    assert ToUpper("self_employed") == "SELF_EMPLOYED";
  }

  function Pow(x: real, n: nat): real {
    if n == 0 then 1.0 else x * Pow(x, n - 1)
  }

  lemma {:induction false} PowAboveOne(x: real, n: nat)
    requires x > 1.0 && n >= 1
    ensures Pow(x, n) > 1.0
  {
    if n > 1 {
      PowAboveOne(x, n - 1);
      assert x * Pow(x, n - 1) > 1.0 * Pow(x, n - 1);
    }
  }

  /** `rate / 100 / 12`: an annual percentage as a monthly fraction. */
  function MonthlyRate(rate: real): real {
    rate / 100.0 / 12.0
  }

  /**
   * `calculateMonthlyPayment` as written: the annuity payment
   * `amount * i * (1 + i)^n / ((1 + i)^n - 1)`, and 0 whenever the amount,
   * the rate or the term is not positive.
   */
  function MonthlyPayment(amount: real, rate: real, months: int): (r: real)
    ensures amount > 0.0 && rate > 0.0 && months > 0 ==> r > 0.0
  {
    if amount <= 0.0 || rate <= 0.0 || months <= 0 then 0.0
    else
      var i := MonthlyRate(rate);
      var q := Pow(1.0 + i, months);
      PowAboveOne(1.0 + i, months);
      assert amount * i * q > 0.0;
      amount * i * q / (q - 1.0)
  }

  /**
   * The monthly payment as evidently intended: the same annuity payment,
   * and the principal spread evenly over the term when the rate is zero.
   */
  function AmortizedPayment(amount: real, rate: real, months: int): (r: real)
    ensures amount > 0.0 && rate >= 0.0 && months > 0 ==> r > 0.0
  {
    if amount > 0.0 && rate == 0.0 && months > 0 then amount / months as real
    else MonthlyPayment(amount, rate, months)
  }

  /** What is still owed after `k` monthly payments: interest accrues, then the payment is made. */
  function Balance(amount: real, i: real, payment: real, k: nat): real {
    if k == 0 then amount else Balance(amount, i, payment, k - 1) * (1.0 + i) - payment
  }

  /** Multiplying by a positive factor keeps a strict inequality. */
  lemma MulStrict(a: real, b: real, c: real)
    requires a > 0.0 && b > c
    ensures a * b > a * c
  {
    assert a * b - a * c == a * (b - c);
  }

  /** Multiplying by a non-negative factor keeps a weak inequality. */
  lemma MulWeak(a: real, b: real, c: real)
    requires a >= 0.0 && b <= c
    ensures a * b <= a * c
  {
    assert a * c - a * b == a * (c - b);
  }

  /** One month of the closed form, on plain numbers: `b0, q0` before the month, `b, q` after. */
  lemma ClosedFormStep(amount: real, i: real, payment: real, b0: real, q0: real, b: real, q: real)
    requires b0 * i == amount * q0 * i - payment * (q0 - 1.0)
    requires b == b0 * (1.0 + i) - payment && q == (1.0 + i) * q0
    ensures b * i == amount * q * i - payment * (q - 1.0)
  {
    assert q == q0 * (1.0 + i);
    calc {
      b * i;
      (b0 * i) * (1.0 + i) - payment * i;
      (amount * q0 * i - payment * (q0 - 1.0)) * (1.0 + i) - payment * i;
      amount * (q0 * (1.0 + i)) * i - payment * (q0 * (1.0 + i) - 1.0);
    }
  }

  /** `Balance * i == amount * (1 + i)^k * i - payment * ((1 + i)^k - 1)`. */
  lemma {:induction false} BalanceClosedForm(amount: real, i: real, payment: real, k: nat)
    ensures Balance(amount, i, payment, k) * i ==
      amount * Pow(1.0 + i, k) * i - payment * (Pow(1.0 + i, k) - 1.0)
  {
    if k > 0 {
      BalanceClosedForm(amount, i, payment, k - 1);
      ClosedFormStep(amount, i, payment, Balance(amount, i, payment, k - 1), Pow(1.0 + i, k - 1),
        Balance(amount, i, payment, k), Pow(1.0 + i, k));
    }
  }

  /** Without interest, every payment comes straight off the balance. */
  lemma {:induction false} BalanceWithoutInterest(amount: real, payment: real, k: nat)
    ensures Balance(amount, 0.0, payment, k) == amount - k as real * payment
  {
    if k > 0 {
      BalanceWithoutInterest(amount, payment, k - 1);
    }
  }

  /**
   * With a positive amount, rate and term, paying `MonthlyPayment` every
   * month for the whole term leaves nothing owed.
   */
  lemma PaymentAmortizes(amount: real, rate: real, months: int)
    requires amount > 0.0 && rate > 0.0 && months > 0
    ensures Balance(amount, MonthlyRate(rate), MonthlyPayment(amount, rate, months), months) == 0.0
  {
    var i := MonthlyRate(rate);
    var q := Pow(1.0 + i, months);
    var p := MonthlyPayment(amount, rate, months);
    PowAboveOne(1.0 + i, months);
    assert p * (q - 1.0) == amount * i * q;
    BalanceClosedForm(amount, i, p, months);
    var b := Balance(amount, i, p, months);
    assert b * i == 0.0;
  }

  lemma {:induction false} PowAtLeastOne(i: real, n: nat)
    requires i > 0.0
    ensures Pow(1.0 + i, n) >= 1.0
  {
    if n > 0 {
      PowAtLeastOne(i, n - 1);
      MulStrict(Pow(1.0 + i, n - 1), 1.0 + i, 1.0);
    }
  }

  /** One step of the growth bound, on plain numbers: `p` stands for `(1 + i)^(n-1)`, `m` for `n - 1`. */
  lemma GrowthStep(i: real, p: real, m: real)
    requires i > 0.0 && p >= 1.0 && m >= 0.0
    requires p - 1.0 < m * i * p
    ensures (1.0 + i) * p - 1.0 < (m + 1.0) * i * ((1.0 + i) * p)
  {
    var w := (m + 1.0) * i * p;
    assert w > 0.0;
    MulStrict(w, 1.0 + i, 1.0);
    calc {
      (1.0 + i) * p - 1.0;
      (p - 1.0) + i * p;
    <
      m * i * p + i * p;
      w;
    <
      w * (1.0 + i);
      (m + 1.0) * i * ((1.0 + i) * p);
    }
  }

  /**
   * `(1 + i)^n - 1 < n * i * (1 + i)^n` for `i > 0`: the bound behind the
   * payments' total exceeding the principal.
   */
  lemma {:induction false} PowGrowthBound(i: real, n: nat)
    requires i > 0.0 && n >= 1
    ensures Pow(1.0 + i, n) - 1.0 < n as real * i * Pow(1.0 + i, n)
  {
    if n == 1 {
      var q := Pow(1.0 + i, n);
      assert q == 1.0 + i;
      MulStrict(i, i, 0.0);
      calc {
        q - 1.0;
        i;
      <
        i + i * i;
        i * q;
        { assert n as real == 1.0; }
        n as real * i * q;
      }
    } else {
      PowGrowthBound(i, n - 1);
      PowAtLeastOne(i, n - 1);
      var p := Pow(1.0 + i, n - 1);
      var m := (n - 1) as real;
      GrowthStep(i, p, m);
      assert Pow(1.0 + i, n) == (1.0 + i) * p;
      assert m + 1.0 == n as real;
    }
  }

  /** The payments' total exceeds the amount, on plain numbers. */
  lemma TotalExceeds(amount: real, i: real, q: real, p: real, n: real)
    requires amount > 0.0 && q > 1.0 && n > 0.0
    requires q - 1.0 < n * i * q
    requires p * (q - 1.0) == amount * i * q
    ensures p * n > amount
  {
    MulStrict(amount, n * i * q, q - 1.0);
    assert (q - 1.0) * (p * n) == amount * (n * i * q);
    if p * n <= amount {
      MulWeak(q - 1.0, p * n, amount);
    }
  }

  /** With a positive rate, the payments over the term add up to more than the amount borrowed. */
  lemma PaymentsExceedPrincipal(amount: real, rate: real, months: int)
    requires amount > 0.0 && rate > 0.0 && months > 0
    ensures MonthlyPayment(amount, rate, months) * months as real > amount
  {
    var i := MonthlyRate(rate);
    var q := Pow(1.0 + i, months);
    var p := MonthlyPayment(amount, rate, months);
    PowAboveOne(1.0 + i, months);
    PowGrowthBound(i, months);
    assert p * (q - 1.0) == amount * i * q;
    TotalExceeds(amount, i, q, p, months as real);
  }

  /**
   * As written, a zero rate, which the form's schema accepts, yields a
   * payment of 0: a 1200 loan over 12 months is then never paid off.
   */
  lemma ZeroRatePaymentIsZero()
    ensures MonthlyPayment(1200.0, 0.0, 12) == 0.0
    ensures Balance(1200.0, MonthlyRate(0.0), MonthlyPayment(1200.0, 0.0, 12), 12) == 1200.0
  {
    BalanceWithoutInterest(1200.0, 0.0, 12);
  }

  /**
   * Corrected: for any positive amount and term and any rate the form
   * accepts (zero included), the payment pays the loan off exactly, and
   * it agrees with the as-written payment whenever the rate is positive.
   */
  lemma AmortizedPaymentAmortizes(amount: real, rate: real, months: int)
    requires amount > 0.0 && rate >= 0.0 && months > 0
    ensures Balance(amount, MonthlyRate(rate), AmortizedPayment(amount, rate, months), months) == 0.0
    ensures rate > 0.0 ==> AmortizedPayment(amount, rate, months) == MonthlyPayment(amount, rate, months)
  {
    if rate == 0.0 {
      var p := amount / months as real;
      BalanceWithoutInterest(amount, p, months);
      assert months as real * p == amount;
    } else {
      PaymentAmortizes(amount, rate, months);
    }
  }

  /** The body posted to `/api/loan-applications`: the form data plus two keys. */
  datatype LoanPayload = LoanPayload(form: LoanFormData, monthlyPayment: real, status: string)

  /**
   * `{ ...data, monthly_payment, status: "pending" }`, with the payment of
   * `calculateMonthlyPayment` as written: the loan is paid off exactly
   * when amount, rate and term are positive, and the payment is 0
   * otherwise, a zero rate included.
   */
  function SubmitPayload(d: LoanFormData): (p: LoanPayload)
    ensures p.form == d && p.status == "pending"
    ensures d.loanAmount > 0.0 && d.interestRate > 0.0 && d.loanTermMonths > 0 ==>
      Balance(d.loanAmount, MonthlyRate(d.interestRate), p.monthlyPayment, d.loanTermMonths) == 0.0
      && p.monthlyPayment * d.loanTermMonths as real > d.loanAmount
    ensures d.loanAmount <= 0.0 || d.interestRate <= 0.0 || d.loanTermMonths <= 0 ==> p.monthlyPayment == 0.0
  {
    var payment := MonthlyPayment(d.loanAmount, d.interestRate, d.loanTermMonths);
    if d.loanAmount > 0.0 && d.interestRate > 0.0 && d.loanTermMonths > 0 then
      PaymentAmortizes(d.loanAmount, d.interestRate, d.loanTermMonths);
      PaymentsExceedPrincipal(d.loanAmount, d.interestRate, d.loanTermMonths);
      LoanPayload(d, payment, "pending")
    else
      LoanPayload(d, payment, "pending")
  }

  /**
   * The payload as evidently intended: the corrected payment pays the
   * loan off for every rate the form accepts, zero included, and the
   * payload differs from the one sent only at a zero rate.
   */
  function CorrectedSubmitPayload(d: LoanFormData): (p: LoanPayload)
    ensures p.form == d && p.status == "pending"
    ensures d.loanAmount > 0.0 && d.loanTermMonths > 0 && d.interestRate >= 0.0 ==>
      Balance(d.loanAmount, MonthlyRate(d.interestRate), p.monthlyPayment, d.loanTermMonths) == 0.0
    ensures d.interestRate != 0.0 ==> p == SubmitPayload(d)
  {
    var payment := AmortizedPayment(d.loanAmount, d.interestRate, d.loanTermMonths);
    if d.loanAmount > 0.0 && d.loanTermMonths > 0 && d.interestRate >= 0.0 then
      AmortizedPaymentAmortizes(d.loanAmount, d.interestRate, d.loanTermMonths);
      LoanPayload(d, payment, "pending")
    else
      LoanPayload(d, payment, "pending")
  }
}
