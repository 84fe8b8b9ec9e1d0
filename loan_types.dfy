/**
 * types/loan.ts: the loan application status and employment enums, the
 * response and create schemas, and the three step schemas of the
 * multi-step application form. Records are objects as zod receives them,
 * so each field is a `Prop` that may be missing.
 */
module LoanTypes {

  import opened JsValue
  import opened Zod

  /** The `LoanApplicationStatus` constant object. */
  const LoanApplicationStatus: map<string, string> := map[
    "PENDING" := "pending",
    "APPROVED" := "approved",
    "REJECTED" := "rejected",
    "CANCELLED" := "cancelled",
    "UNDER_REVIEW" := "under_review"
  ]

  /** The values of the `status` enum of the response schema. */
  const StatusEnum: set<string> := {"pending", "approved", "rejected", "cancelled", "under_review"}

  /** The values of the `employmentStatus` enum, the same in all three schemas that have it. */
  const EmploymentStatusEnum: set<string> := {"EMPLOYED", "SELF_EMPLOYED", "UNEMPLOYED", "RETIRED"}

  /** An object offered to `loanApplicationCreateSchema`; also `Partial<LoanApplicationCreate>`. */
  datatype LoanApplicationInput = LoanApplicationInput(
    vehicleId: Prop<string>,
    valuationId: Prop<string>,
    applicantName: Prop<string>,
    applicantEmail: Prop<string>,
    applicantPhone: Prop<string>,
    monthlyIncome: Prop<real>,
    employmentStatus: Prop<string>,
    loanAmount: Prop<real>,
    interestRate: Prop<real>,
    termMonths: Prop<real>,
    notes: Prop<string>)

  /** An object offered to `loanApplicationSchema` (a server response). */
  datatype LoanApplicationRecord = LoanApplicationRecord(
    id: Prop<string>,
    vehicleId: Prop<string>,
    valuationId: Prop<string>,
    applicantName: Prop<string>,
    applicantEmail: Prop<string>,
    applicantPhone: Prop<string>,
    monthlyIncome: Prop<real>,
    employmentStatus: Prop<string>,
    loanAmount: Prop<real>,
    interestRate: Prop<real>,
    termMonths: Prop<real>,
    notes: Prop<string>,
    status: Prop<string>,
    createdAt: Prop<string>,
    updatedAt: Prop<string>)

  /** `Partial<PersonalInfo>`, the first step's record. */
  datatype PersonalInfo = PersonalInfo(
    applicantName: Prop<string>, applicantEmail: Prop<string>, applicantPhone: Prop<string>)

  /** `Partial<EmploymentInfo>`, the second step's record. */
  datatype EmploymentInfo = EmploymentInfo(monthlyIncome: Prop<real>, employmentStatus: Prop<string>)

  /** `Partial<LoanDetails>`, the third step's record. */
  datatype LoanDetails = LoanDetails(
    loanAmount: Prop<real>, interestRate: Prop<real>, termMonths: Prop<real>, notes: Prop<string>)

  /** `loanApplicationSchema`. */
  predicate LoanApplicationSchema(r: LoanApplicationRecord, f: Formats) {
    && r.id.Present? && f.uuid(r.id.value)
    && r.vehicleId.Present? && f.uuid(r.vehicleId.value)
    && r.valuationId.Present? && f.uuid(r.valuationId.value)
    && r.applicantName.Present? && 2 <= |r.applicantName.value| <= 100
    && r.applicantEmail.Present? && f.email(r.applicantEmail.value)
    && r.applicantPhone.Present? && 1 <= |r.applicantPhone.value|
    && r.monthlyIncome.Present? && r.monthlyIncome.value > 0.0
    && r.employmentStatus.Present? && r.employmentStatus.value in EmploymentStatusEnum
    && r.loanAmount.Present? && r.loanAmount.value >= 1000.0
    && r.interestRate.Present? && 0.0 <= r.interestRate.value <= 50.0
    && r.termMonths.Present? && IsInt(r.termMonths.value) && 12.0 <= r.termMonths.value <= 84.0
    && r.status.Present? && r.status.value in StatusEnum
    && r.createdAt.Present? && f.datetime(r.createdAt.value)
    && r.updatedAt.Present? && f.datetime(r.updatedAt.value)
  }

  /** `loanApplicationCreateSchema`. */
  predicate LoanApplicationCreateSchema(a: LoanApplicationInput, f: Formats) {
    && a.vehicleId.Present? && f.uuid(a.vehicleId.value)
    && a.valuationId.Present? && f.uuid(a.valuationId.value)
    && a.applicantName.Present? && 2 <= |a.applicantName.value| <= 100
    && a.applicantEmail.Present? && f.email(a.applicantEmail.value)
    && a.applicantPhone.Present? && 1 <= |a.applicantPhone.value|
    && a.monthlyIncome.Present? && a.monthlyIncome.value > 0.0
    && a.employmentStatus.Present? && a.employmentStatus.value in EmploymentStatusEnum
    && a.loanAmount.Present? && a.loanAmount.value >= 1000.0
    && a.interestRate.Present? && 0.0 <= a.interestRate.value <= 50.0
    && a.termMonths.Present? && IsInt(a.termMonths.value) && 12.0 <= a.termMonths.value <= 84.0
  }

  /** `personalInfoSchema`. */
  predicate PersonalInfoSchema(p: PersonalInfo, f: Formats) {
    && p.applicantName.Present? && 2 <= |p.applicantName.value| <= 100
    && p.applicantEmail.Present? && f.email(p.applicantEmail.value)
    && p.applicantPhone.Present? && 1 <= |p.applicantPhone.value|
  }

  /** `employmentInfoSchema`. */
  predicate EmploymentInfoSchema(e: EmploymentInfo) {
    && e.monthlyIncome.Present? && e.monthlyIncome.value > 0.0
    && e.employmentStatus.Present? && e.employmentStatus.value in EmploymentStatusEnum
  }

  /** `loanDetailsSchema`. */
  predicate LoanDetailsSchema(d: LoanDetails) {
    && d.loanAmount.Present? && d.loanAmount.value >= 1000.0
    && d.interestRate.Present? && 0.0 <= d.interestRate.value <= 50.0
    && d.termMonths.Present? && IsInt(d.termMonths.value) && 12.0 <= d.termMonths.value <= 84.0
  }

  function PersonalOf(a: LoanApplicationInput): PersonalInfo {
    PersonalInfo(a.applicantName, a.applicantEmail, a.applicantPhone)
  }

  function EmploymentOf(a: LoanApplicationInput): EmploymentInfo {
    EmploymentInfo(a.monthlyIncome, a.employmentStatus)
  }

  function DetailsOf(a: LoanApplicationInput): LoanDetails {
    LoanDetails(a.loanAmount, a.interestRate, a.termMonths, a.notes)
  }

  /** The fields of a response record that the create schema also has. */
  function CreatePartOf(r: LoanApplicationRecord): LoanApplicationInput {
    LoanApplicationInput(r.vehicleId, r.valuationId, r.applicantName, r.applicantEmail,
      r.applicantPhone, r.monthlyIncome, r.employmentStatus, r.loanAmount, r.interestRate,
      r.termMonths, r.notes)
  }

  /**
   * The create schema is exactly the three step schemas together with the
   * two entity ids: a multi-step form that passes every step, and has a
   * vehicle and a valuation selected, passes the create schema.
   */
  lemma CreateIsStepsPlusIds(a: LoanApplicationInput, f: Formats)
    ensures LoanApplicationCreateSchema(a, f) <==>
      && PersonalInfoSchema(PersonalOf(a), f)
      && EmploymentInfoSchema(EmploymentOf(a))
      && LoanDetailsSchema(DetailsOf(a))
      && a.vehicleId.Present? && f.uuid(a.vehicleId.value)
      && a.valuationId.Present? && f.uuid(a.valuationId.value)
  {
  }

  /**
   * The response schema applies the create schema's rules, unchanged, to
   * the fields they share, and adds the id, the status and the timestamps.
   */
  lemma ResponseIsCreatePlusServerFields(r: LoanApplicationRecord, f: Formats)
    ensures LoanApplicationSchema(r, f) <==>
      && LoanApplicationCreateSchema(CreatePartOf(r), f)
      && r.id.Present? && f.uuid(r.id.value)
      && r.status.Present? && r.status.value in StatusEnum
      && r.createdAt.Present? && f.datetime(r.createdAt.value)
      && r.updatedAt.Present? && f.datetime(r.updatedAt.value)
  {
  }

  /** The status enum is exactly the set of values of `LoanApplicationStatus`. */
  lemma StatusEnumIsConstantValues()
    ensures StatusEnum == LoanApplicationStatus.Values
  {
    assert LoanApplicationStatus["PENDING"] == "pending";
    assert LoanApplicationStatus["APPROVED"] == "approved";
    assert LoanApplicationStatus["REJECTED"] == "rejected";
    assert LoanApplicationStatus["CANCELLED"] == "cancelled";
    assert LoanApplicationStatus["UNDER_REVIEW"] == "under_review";
  }
}
