/** Values the modelled constructors only store and pass on: external value types and the
    repository's field-only records. Each is an opaque token here. */
module OpaqueRecords {

  /** A `System.DateTime`, as its tick count. */
  datatype DateTime = DateTime(ticks: int)

  /** The external `DateRange`: first and last day, as day numbers. */
  datatype DateRange = DateRange(start: int, end: int)

  /** The external `StateAidForEmploymentAllowance` enumeration, as its numeric value. */
  datatype StateAidForEmploymentAllowance = StateAidForEmploymentAllowance(code: int)

  /** An `IApprenticeLevy` record, identified by a token. */
  datatype ApprenticeLevy = ApprenticeLevy(token: int)

  /** An `IFinalSubmissionData` record, identified by a token. */
  datatype FinalSubmissionData = FinalSubmissionData(token: int)

  /** An `IFullPaymentSubmissionEmployeeEntry` record, identified by a token. */
  datatype EmployeeEntry = EmployeeEntry(token: int)
}
