/**
 * stores/application-flow-store.ts: the zustand store that carries a loan
 * application through the multi-step form. The store is an object whose
 * actions replace some of its fields; it is modelled as a class with
 * those fields, whose methods state the new state in terms of the pure
 * functions below, and a `FlowState` value that the lemmas talk about.
 */
module ApplicationFlowStore {

  import opened Wrappers
  import opened JsValue
  import opened Zod
  import opened LoanTypes

  /** The data fields of the store (its actions are the class's methods). */
  datatype FlowState = FlowState(
    currentApplication: LoanApplicationInput,
    currentStep: int,
    completedSteps: seq<int>,
    personalInfo: PersonalInfo,
    employmentInfo: EmploymentInfo,
    loanDetails: LoanDetails,
    selectedVehicleId: Option<string>,
    selectedValuationId: Option<string>,
    stepValidation: map<int, bool>)

  /** The part of the state written to local storage. */
  datatype Snapshot = Snapshot(
    currentApplication: LoanApplicationInput,
    currentStep: int,
    completedSteps: seq<int>,
    personalInfo: PersonalInfo,
    employmentInfo: EmploymentInfo,
    loanDetails: LoanDetails,
    selectedVehicleId: Option<string>,
    selectedValuationId: Option<string>)

  const EmptyApplication: LoanApplicationInput :=
    LoanApplicationInput(Absent, Absent, Absent, Absent, Absent, Absent, Absent, Absent, Absent, Absent, Absent)

  const EmptyPersonalInfo: PersonalInfo := PersonalInfo(Absent, Absent, Absent)
  const EmptyEmploymentInfo: EmploymentInfo := EmploymentInfo(Absent, Absent)
  const EmptyLoanDetails: LoanDetails := LoanDetails(Absent, Absent, Absent, Absent)

  /** The initial state, which `clearApplication` also restores. */
  const InitialState: FlowState := FlowState(
    EmptyApplication, 1, [], EmptyPersonalInfo, EmptyEmploymentInfo, EmptyLoanDetails, None, None, map[])

  predicate NoDuplicates(s: seq<int>) {
    forall i, j :: 0 <= i < j < |s| ==> s[i] != s[j]
  }

  /** `[...new Set(s)]`: the first occurrence of each element, in the order of `s`. */
  function Distinct(s: seq<int>): (r: seq<int>)
    ensures NoDuplicates(r)
    ensures forall x :: x in r <==> x in s
    ensures |r| <= |s|
  {
    if s == [] then []
    else
      var init := s[..|s| - 1];
      assert s == init + [s[|s| - 1]];
      var d := Distinct(init);
      if s[|s| - 1] in d then d else d + [s[|s| - 1]]
  }

  /** Removing duplicates from a list that has none leaves it as it is. */
  lemma {:induction false} DistinctNoop(s: seq<int>)
    requires NoDuplicates(s)
    ensures Distinct(s) == s
  {
    if s != [] {
      var init := s[..|s| - 1];
      assert NoDuplicates(init);
      DistinctNoop(init);
      assert s[|s| - 1] !in init by {
        forall i | 0 <= i < |init|
          ensures init[i] != s[|s| - 1]
        {
          assert init[i] == s[i];
        }
      }
      assert s == init + [s[|s| - 1]];
    }
  }

  /** `markStepCompleted`'s new list of completed steps. */
  function MarkCompleted(steps: seq<int>, step: int): seq<int> {
    Distinct(steps + [step])
  }

  /**
   * On a list without duplicates (which every list the store builds is),
   * marking a step appends it if it is new and changes nothing otherwise.
   */
  lemma MarkCompletedAppendsNew(steps: seq<int>, step: int)
    requires NoDuplicates(steps)
    ensures MarkCompleted(steps, step) == if step in steps then steps else steps + [step]
  {
    var s := steps + [step];
    assert s[..|s| - 1] == steps;
    DistinctNoop(steps);
  }

  /** Marking the same step twice is the same as marking it once. */
  lemma MarkCompletedIdempotent(steps: seq<int>, step: int)
    ensures MarkCompleted(MarkCompleted(steps, step), step) == MarkCompleted(steps, step)
  {
    var once := MarkCompleted(steps, step);
    MarkCompletedAppendsNew(once, step);
    DistinctNoop(once);
  }

  /** `{ ...a, ...b }` on the personal-information record. */
  function MergePersonal(a: PersonalInfo, b: PersonalInfo): PersonalInfo {
    PersonalInfo(
      Spread(a.applicantName, b.applicantName),
      Spread(a.applicantEmail, b.applicantEmail),
      Spread(a.applicantPhone, b.applicantPhone))
  }

  /** `{ ...a, ...b }` on the employment-information record. */
  function MergeEmployment(a: EmploymentInfo, b: EmploymentInfo): EmploymentInfo {
    EmploymentInfo(Spread(a.monthlyIncome, b.monthlyIncome), Spread(a.employmentStatus, b.employmentStatus))
  }

  /** `{ ...a, ...b }` on the loan-details record. */
  function MergeDetails(a: LoanDetails, b: LoanDetails): LoanDetails {
    LoanDetails(
      Spread(a.loanAmount, b.loanAmount),
      Spread(a.interestRate, b.interestRate),
      Spread(a.termMonths, b.termMonths),
      Spread(a.notes, b.notes))
  }

  /**
   * Two successive step setters act like one setter given the two patches
   * merged, and an empty patch changes nothing.
   */
  lemma MergesCompose(p: PersonalInfo, p1: PersonalInfo, p2: PersonalInfo,
                      e: EmploymentInfo, e1: EmploymentInfo, e2: EmploymentInfo,
                      d: LoanDetails, d1: LoanDetails, d2: LoanDetails)
    ensures MergePersonal(MergePersonal(p, p1), p2) == MergePersonal(p, MergePersonal(p1, p2))
    ensures MergeEmployment(MergeEmployment(e, e1), e2) == MergeEmployment(e, MergeEmployment(e1, e2))
    ensures MergeDetails(MergeDetails(d, d1), d2) == MergeDetails(d, MergeDetails(d1, d2))
    ensures MergePersonal(p, EmptyPersonalInfo) == p
    ensures MergeEmployment(e, EmptyEmploymentInfo) == e
    ensures MergeDetails(d, EmptyLoanDetails) == d
  {
  }

  /** A key of the patch, once set, reads back after the merge; other keys keep their value. */
  lemma MergeReadsPatch(p: PersonalInfo, patch: PersonalInfo)
    ensures patch.applicantName.Present? ==> MergePersonal(p, patch).applicantName.Get() == patch.applicantName.Get()
    ensures patch.applicantName.Absent? ==> MergePersonal(p, patch).applicantName == p.applicantName
    ensures patch.applicantName.Undefined? ==> MergePersonal(p, patch).applicantName.Get() == None
  {
  }

  /** The application after `setSelectedVehicle(v)`: `vehicleId: v || undefined`. */
  function SelectVehicle(app: LoanApplicationInput, v: Option<string>): LoanApplicationInput {
    app.(vehicleId := if v.Some? && v.value != "" then Present(v.value) else Undefined)
  }

  /** The application after `setSelectedValuation(v)`: `valuationId: v || undefined`. */
  function SelectValuation(app: LoanApplicationInput, v: Option<string>): LoanApplicationInput {
    app.(valuationId := if v.Some? && v.value != "" then Present(v.value) else Undefined)
  }

  /**
   * Selecting a vehicle decides the create schema's vehicle condition:
   * clearing the selection (or selecting "") makes the application fail
   * the create schema whatever else it holds.
   */
  lemma SelectionDecidesIds(app: LoanApplicationInput, v: Option<string>, w: Option<string>, f: Formats)
    ensures var a := SelectValuation(SelectVehicle(app, v), w);
      LoanApplicationCreateSchema(a, f) <==>
        && v.Some? && v.value != "" && f.uuid(v.value)
        && w.Some? && w.value != "" && f.uuid(w.value)
        && LoanApplicationCreateSchema(app.(vehicleId := Present(v.value), valuationId := Present(w.value)), f)
  {
  }

  /** The state after `loadApplication(data)`; the step validation is kept. */
  function Loaded(st: FlowState, data: LoanApplicationInput): FlowState {
    FlowState(
      data,
      0,
      [],
      PersonalInfo(
        Present(OrString(data.applicantName, "")),
        Present(OrString(data.applicantEmail, "")),
        Present(OrString(data.applicantPhone, ""))),
      EmploymentInfo(
        Present(OrNumber(data.monthlyIncome, 0.0)),
        Present(OrString(data.employmentStatus, "EMPLOYED"))),
      LoanDetails(
        Present(OrNumber(data.loanAmount, 0.0)),
        Present(OrNumber(data.interestRate, 0.0)),
        Present(OrNumber(data.termMonths, 12.0)),
        Present(OrString(data.notes, ""))),
      OrNull(data.vehicleId),
      OrNull(data.valuationId),
      st.stepValidation)
  }

  /**
   * Loading an application that passes the create schema fills the step
   * records with its own values (notes defaulting to ""), so each step
   * passes its step schema.
   */
  lemma LoadValidApplication(st: FlowState, data: LoanApplicationInput, f: Formats)
    requires LoanApplicationCreateSchema(data, f)
    ensures Loaded(st, data).personalInfo == PersonalOf(data)
    ensures Loaded(st, data).employmentInfo == EmploymentOf(data)
    ensures Loaded(st, data).loanDetails == DetailsOf(data).(notes := Present(OrString(data.notes, "")))
    ensures PersonalInfoSchema(Loaded(st, data).personalInfo, f)
    ensures EmploymentInfoSchema(Loaded(st, data).employmentInfo)
    ensures LoanDetailsSchema(Loaded(st, data).loanDetails)
  {
  }

  /**
   * Loading an empty draft fills every step field with its default, and
   * those defaults fail the personal and loan-details steps.
   */
  lemma LoadEmptyDraft(st: FlowState, f: Formats)
    ensures Loaded(st, EmptyApplication).loanDetails.termMonths == Present(12.0)
    ensures Loaded(st, EmptyApplication).employmentInfo.employmentStatus == Present("EMPLOYED")
    ensures !PersonalInfoSchema(Loaded(st, EmptyApplication).personalInfo, f)
    ensures !LoanDetailsSchema(Loaded(st, EmptyApplication).loanDetails)
    ensures !EmploymentInfoSchema(Loaded(st, EmptyApplication).employmentInfo)
  {
  }

  /**
   * Loading restarts the flow at step 0 (not the initial step 1) with no
   * completed steps, keeps the step validation, and takes a zero term as
   * missing: the `||` default turns it into 12 months.
   */
  lemma LoadRestartsFlow(st: FlowState, data: LoanApplicationInput)
    ensures Loaded(st, data).currentApplication == data
    ensures Loaded(st, data).currentStep == 0 && Loaded(st, data).currentStep != InitialState.currentStep
    ensures Loaded(st, data).completedSteps == [] && Loaded(st, data).stepValidation == st.stepValidation
    ensures data.termMonths == Present(0.0) ==> Loaded(st, data).loanDetails.termMonths == Present(12.0)
    ensures data.termMonths.Present? && data.termMonths.value != 0.0 ==>
      Loaded(st, data).loanDetails.termMonths == data.termMonths
    ensures Loaded(st, data).selectedVehicleId.Some? <==> data.vehicleId.Present? && data.vehicleId.value != ""
  {
  }

  /** `partialize`: everything except the step validation. */
  function Partialize(st: FlowState): Snapshot {
    Snapshot(st.currentApplication, st.currentStep, st.completedSteps, st.personalInfo,
      st.employmentInfo, st.loanDetails, st.selectedVehicleId, st.selectedValuationId)
  }

  /** Two states persist alike exactly when they differ at most in their step validation. */
  lemma PartializeDropsOnlyValidation(a: FlowState, b: FlowState)
    ensures Partialize(a) == Partialize(b) <==> a.(stepValidation := b.stepValidation) == b
  {
  }

  /** What is persisted after a load depends only on the loaded data. */
  lemma LoadForgetsPreviousState(st1: FlowState, st2: FlowState, data: LoanApplicationInput)
    ensures Partialize(Loaded(st1, data)) == Partialize(Loaded(st2, data))
  {
  }

  /** The store; `State()` reads its data fields as one value. */
  class ApplicationFlow {

    var currentApplication: LoanApplicationInput
    var currentStep: int
    var completedSteps: seq<int>
    var personalInfo: PersonalInfo
    var employmentInfo: EmploymentInfo
    var loanDetails: LoanDetails
    var selectedVehicleId: Option<string>
    var selectedValuationId: Option<string>
    var stepValidation: map<int, bool>

    function State(): FlowState
      reads this
    {
      FlowState(currentApplication, currentStep, completedSteps, personalInfo, employmentInfo,
        loanDetails, selectedVehicleId, selectedValuationId, stepValidation)
    }

    constructor ()
      ensures State() == InitialState
    {
      currentApplication := EmptyApplication;
      currentStep := 1;
      completedSteps := [];
      personalInfo := EmptyPersonalInfo;
      employmentInfo := EmptyEmploymentInfo;
      loanDetails := EmptyLoanDetails;
      selectedVehicleId := None;
      selectedValuationId := None;
      stepValidation := map[];
    }

    method SetCurrentStep(step: int)
      modifies this
      ensures State() == old(State()).(currentStep := step)
    {
      currentStep := step;
    }

    method MarkStepCompleted(step: int)
      modifies this
      ensures State() == old(State()).(completedSteps := MarkCompleted(old(completedSteps), step))
      ensures step in completedSteps && NoDuplicates(completedSteps)
      ensures forall s :: s in completedSteps <==> s == step || s in old(completedSteps)
    {
      completedSteps := Distinct(completedSteps + [step]);
    }

    method SetPersonalInfo(data: PersonalInfo)
      modifies this
      ensures State() == old(State()).(personalInfo := MergePersonal(old(personalInfo), data))
    {
      personalInfo := MergePersonal(personalInfo, data);
    }

    method SetEmploymentInfo(data: EmploymentInfo)
      modifies this
      ensures State() == old(State()).(employmentInfo := MergeEmployment(old(employmentInfo), data))
    {
      employmentInfo := MergeEmployment(employmentInfo, data);
    }

    method SetLoanDetails(data: LoanDetails)
      modifies this
      ensures State() == old(State()).(loanDetails := MergeDetails(old(loanDetails), data))
    {
      loanDetails := MergeDetails(loanDetails, data);
    }

    method SetSelectedVehicle(vehicleId: Option<string>)
      modifies this
      ensures State() == old(State()).(selectedVehicleId := vehicleId,
        currentApplication := SelectVehicle(old(currentApplication), vehicleId))
    {
      selectedVehicleId := vehicleId;
      currentApplication := SelectVehicle(currentApplication, vehicleId);
    }

    method SetSelectedValuation(valuationId: Option<string>)
      modifies this
      ensures State() == old(State()).(selectedValuationId := valuationId,
        currentApplication := SelectValuation(old(currentApplication), valuationId))
    {
      selectedValuationId := valuationId;
      currentApplication := SelectValuation(currentApplication, valuationId);
    }

    /** `saveApplication` only logs the current application, returned here; nothing changes. */
    method SaveApplication() returns (logged: LoanApplicationInput)
      ensures logged == currentApplication
    {
      logged := currentApplication;
    }

    method ClearApplication()
      modifies this
      ensures State() == InitialState
    {
      currentApplication := EmptyApplication;
      currentStep := 1;
      completedSteps := [];
      personalInfo := EmptyPersonalInfo;
      employmentInfo := EmptyEmploymentInfo;
      loanDetails := EmptyLoanDetails;
      selectedVehicleId := None;
      selectedValuationId := None;
      stepValidation := map[];
    }

    method LoadApplication(data: LoanApplicationInput)
      modifies this
      ensures State() == Loaded(old(State()), data)
    {
      var st := Loaded(State(), data);
      currentApplication := st.currentApplication;
      currentStep := st.currentStep;
      completedSteps := st.completedSteps;
      personalInfo := st.personalInfo;
      employmentInfo := st.employmentInfo;
      loanDetails := st.loanDetails;
      selectedVehicleId := st.selectedVehicleId;
      selectedValuationId := st.selectedValuationId;
    }

    method SetStepValid(step: int, valid: bool)
      modifies this
      ensures State() == old(State()).(stepValidation := old(stepValidation)[step := valid])
      ensures Partialize(State()) == Partialize(old(State()))
    {
      stepValidation := stepValidation[step := valid];
    }
  }
}
