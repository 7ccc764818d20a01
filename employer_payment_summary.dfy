/** The data set of an Employer Payment Summary and its validating constructor
    (EmployerPaymentSummaryData.cs). */
module EmployerPaymentSummary {
  import opened Wrappers
  import opened OpaqueRecords
  import opened Envelopes
  import opened RecoverableAmounts
  import opened BankAccounts

  const BothDateRangesMessage := "Only one of noPaymentDates or periodOfInactivity may be specified"
  const RecoverableWhenUnpaidMessage := "Recoverable amounts (YTD) should not be specified when no employees are being paid"
  const StateAidMissingMessage := "deMinimisStateAid must be specified when employmentAllowanceIndicator is set to true"

  /** `EmployerPaymentSummaryData`: the envelope values it inherits, then its own. */
  datatype EmployerPaymentSummaryData = EmployerPaymentSummaryData(
    envelope: IRenvelopeData,
    corporationTaxReference: Nullable<string>,
    noPaymentDates: Nullable<DateRange>,
    periodOfInactivity: Nullable<DateRange>,
    employmentAllowanceIndicator: Nullable<bool>,
    deMinimisStateAid: Nullable<StateAidForEmploymentAllowance>,
    recoverableAmountsYtd: Nullable<RecoverableAmountsYtd>,
    apprenticeLevy: Nullable<ApprenticeLevy>,
    account: Nullable<BankAccount>,
    finalSubmissionData: Nullable<FinalSubmissionData>)

  /** The invariant every constructed EPS data set keeps: at most one of the no-payment
      date ranges, no recoverable amounts when either is given, and a de minimis state aid
      sector whenever the employment allowance is claimed. */
  predicate Valid(d: EmployerPaymentSummaryData) {
    && !(d.noPaymentDates.NonNull? && d.periodOfInactivity.NonNull?)
    && ((d.noPaymentDates.NonNull? || d.periodOfInactivity.NonNull?) ==> d.recoverableAmountsYtd.Null?)
    && (d.employmentAllowanceIndicator == NonNull(true) ==> d.deMinimisStateAid.NonNull?)
  }

  /** The constructor. Its three checks run in order, so the first rule broken names the
      parameter reported; when all pass every property holds its argument and the envelope
      values are copied. `finalSubmissionData` is null when omitted. */
  function NewEmployerPaymentSummaryData(
    envelopeData: IRenvelopeData,
    corporationTaxReference: Nullable<string>,
    noPaymentDates: Nullable<DateRange>,
    periodOfInactivity: Nullable<DateRange>,
    employmentAllowanceIndicator: Nullable<bool>,
    deMinimisStateAid: Nullable<StateAidForEmploymentAllowance>,
    recoverableAmountsYtd: Nullable<RecoverableAmountsYtd>,
    apprenticeLevy: Nullable<ApprenticeLevy>,
    account: Nullable<BankAccount>,
    finalSubmissionData: Nullable<FinalSubmissionData> := Null): (r: Result<EmployerPaymentSummaryData>)
    ensures noPaymentDates.NonNull? && periodOfInactivity.NonNull? ==>
              r == Err(ArgumentException(BothDateRangesMessage, "noPaymentDates"))
    ensures (noPaymentDates.NonNull? != periodOfInactivity.NonNull?) && recoverableAmountsYtd.NonNull? ==>
              r == Err(ArgumentException(RecoverableWhenUnpaidMessage, "recoverableAmountsYtd"))
    ensures && !(noPaymentDates.NonNull? && periodOfInactivity.NonNull?)
            && !((noPaymentDates.NonNull? || periodOfInactivity.NonNull?) && recoverableAmountsYtd.NonNull?)
            && employmentAllowanceIndicator == NonNull(true) && deMinimisStateAid.Null? ==>
              r == Err(ArgumentException(StateAidMissingMessage, "deMinimisStateAid"))
    ensures r.Ok? <==>
              && !(noPaymentDates.NonNull? && periodOfInactivity.NonNull?)
              && !((noPaymentDates.NonNull? || periodOfInactivity.NonNull?) && recoverableAmountsYtd.NonNull?)
              && !(employmentAllowanceIndicator == NonNull(true) && deMinimisStateAid.Null?)
    ensures r.Ok? ==> Valid(r.value)
    ensures r.Ok? ==>
              && SameEnvelope(r.value.envelope, envelopeData)
              && r.value.corporationTaxReference == corporationTaxReference
              && r.value.noPaymentDates == noPaymentDates
              && r.value.periodOfInactivity == periodOfInactivity
              && r.value.employmentAllowanceIndicator == employmentAllowanceIndicator
              && r.value.deMinimisStateAid == deMinimisStateAid
              && r.value.recoverableAmountsYtd == recoverableAmountsYtd
              && r.value.apprenticeLevy == apprenticeLevy
              && r.value.account == account
              && r.value.finalSubmissionData == finalSubmissionData
  {
    if noPaymentDates.NonNull? && periodOfInactivity.NonNull? then
      Err(ArgumentException(BothDateRangesMessage, "noPaymentDates"))
    else if (periodOfInactivity.NonNull? || noPaymentDates.NonNull?) && recoverableAmountsYtd.NonNull? then
      Err(ArgumentException(RecoverableWhenUnpaidMessage, "recoverableAmountsYtd"))
    else if employmentAllowanceIndicator == NonNull(true) && deMinimisStateAid.Null? then
      Err(ArgumentException(StateAidMissingMessage, "deMinimisStateAid"))
    else
      Ok(EmployerPaymentSummaryData(
        CopyEnvelopeData(envelopeData), corporationTaxReference, noPaymentDates, periodOfInactivity,
        employmentAllowanceIndicator, deMinimisStateAid, recoverableAmountsYtd, apprenticeLevy,
        account, finalSubmissionData))
  }

  /** The constructor succeeds exactly on the arguments that form a valid data set, and every
      valid data set is what the constructor builds from its own values. */
  lemma ConstructorAcceptsExactlyValid(d: EmployerPaymentSummaryData)
    ensures NewEmployerPaymentSummaryData(
              d.envelope, d.corporationTaxReference, d.noPaymentDates, d.periodOfInactivity,
              d.employmentAllowanceIndicator, d.deMinimisStateAid, d.recoverableAmountsYtd,
              d.apprenticeLevy, d.account, d.finalSubmissionData)
            == (if Valid(d) then Ok(d) else Err(FirstBrokenRule(d)))
  {
  }

  /** The error of the first rule `d` breaks, in the constructor's order. This restates the
      constructor's checks on a finished record, as the reference the constructor is compared
      with in `ConstructorAcceptsExactlyValid`. */
  function FirstBrokenRule(d: EmployerPaymentSummaryData): (e: Exception)
    requires !Valid(d)
    ensures e.ArgumentException?
  {
    if d.noPaymentDates.NonNull? && d.periodOfInactivity.NonNull? then
      ArgumentException(BothDateRangesMessage, "noPaymentDates")
    else if (d.periodOfInactivity.NonNull? || d.noPaymentDates.NonNull?) && d.recoverableAmountsYtd.NonNull? then
      ArgumentException(RecoverableWhenUnpaidMessage, "recoverableAmountsYtd")
    else
      ArgumentException(StateAidMissingMessage, "deMinimisStateAid")
  }

  /** A false or null employment allowance indicator never trips the state aid check. */
  lemma IndicatorNotTrueNeverNeedsStateAid(
    envelopeData: IRenvelopeData, corporationTaxReference: Nullable<string>,
    employmentAllowanceIndicator: Nullable<bool>, apprenticeLevy: Nullable<ApprenticeLevy>,
    account: Nullable<BankAccount>, recoverableAmountsYtd: Nullable<RecoverableAmountsYtd>)
    requires employmentAllowanceIndicator != NonNull(true)
    ensures NewEmployerPaymentSummaryData(envelopeData, corporationTaxReference, Null, Null,
              employmentAllowanceIndicator, Null, recoverableAmountsYtd, apprenticeLevy, account).Ok?
  {
  }
}
