/** The data set of a Full Payment Submission (FullPaymentSubmissionData.cs). */
module FullPaymentSubmission {
  import opened Wrappers
  import opened OpaqueRecords
  import opened Envelopes

  /** `FullPaymentSubmissionData`: the envelope values it inherits, then its own. */
  datatype FullPaymentSubmissionData = FullPaymentSubmissionData(
    envelope: IRenvelopeData,
    corporationTaxReference: Nullable<string>,
    employeeEntries: seq<EmployeeEntry>,
    finalSubmissionData: Nullable<FinalSubmissionData>)

  /** The constructor: copies the envelope, keeps the corporation tax reference (null
      included), materialises the entries in their order, and keeps the final submission
      data, null when omitted. */
  function NewFullPaymentSubmissionData(
    envelopeData: IRenvelopeData,
    corporationTaxReference: Nullable<string>,
    employeeEntries: seq<EmployeeEntry>,
    finalSubmissionData: Nullable<FinalSubmissionData> := Null): (r: FullPaymentSubmissionData)
    ensures SameEnvelope(r.envelope, envelopeData)
    ensures r.corporationTaxReference == corporationTaxReference
    ensures |r.employeeEntries| == |employeeEntries|
    ensures forall k :: 0 <= k < |employeeEntries| ==> r.employeeEntries[k] == employeeEntries[k]
    ensures r.finalSubmissionData == finalSubmissionData
  {
    FullPaymentSubmissionData(CopyEnvelopeData(envelopeData), corporationTaxReference,
                              employeeEntries, finalSubmissionData)
  }
}
