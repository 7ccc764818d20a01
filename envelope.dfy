/** The data that fills the IRenvelope header of an FPS, EPS or NVR (IRenvelopeData.cs). */
module Envelopes {
  import opened Wrappers
  import opened OpaqueRecords
  import HeaderContacts
  import SenderTypes

  /** `IRenvelopeData`: five get-only properties, set once by a constructor. */
  datatype IRenvelopeData = IRenvelopeData(
    periodEnd: DateTime,
    iRheaderContact: HeaderContacts.IRheaderContact,
    sender: SenderTypes.IRheaderSenderType,
    accountsOfficeReference: Nullable<string>,
    hmrcPayeReference: Nullable<string>)

  /** Two envelopes carry the same five values. */
  predicate SameEnvelope(a: IRenvelopeData, b: IRenvelopeData) {
    && a.periodEnd == b.periodEnd
    && a.iRheaderContact == b.iRheaderContact
    && a.sender == b.sender
    && a.accountsOfficeReference == b.accountsOfficeReference
    && a.hmrcPayeReference == b.hmrcPayeReference
  }

  /** The public constructor. Its parameters list the PAYE reference before the accounts
      office reference; each is stored in its own property. */
  function NewEnvelopeData(
    periodEnd: DateTime,
    iRheaderContact: HeaderContacts.IRheaderContact,
    sender: SenderTypes.IRheaderSenderType,
    hmrcPayeReference: Nullable<string>,
    accountsOfficeReference: Nullable<string>): (r: IRenvelopeData)
    ensures r.periodEnd == periodEnd && r.iRheaderContact == iRheaderContact && r.sender == sender
    ensures r.hmrcPayeReference == hmrcPayeReference
    ensures r.accountsOfficeReference == accountsOfficeReference
  {
    IRenvelopeData(periodEnd, iRheaderContact, sender, accountsOfficeReference, hmrcPayeReference)
  }

  /** The protected copy constructor the FPS and EPS data constructors call. */
  function CopyEnvelopeData(data: IRenvelopeData): (r: IRenvelopeData)
    ensures SameEnvelope(r, data)
  {
    IRenvelopeData(data.periodEnd, data.iRheaderContact, data.sender,
                   data.accountsOfficeReference, data.hmrcPayeReference)
  }

  /** Rebuilding an envelope from its own values with the public constructor, or copying a
      copy, gives back the same values. */
  lemma EnvelopeRoundTrip(data: IRenvelopeData)
    ensures NewEnvelopeData(data.periodEnd, data.iRheaderContact, data.sender,
                            data.hmrcPayeReference, data.accountsOfficeReference) == data
    ensures CopyEnvelopeData(CopyEnvelopeData(data)) == CopyEnvelopeData(data)
    ensures SameEnvelope(CopyEnvelopeData(data), data)
  {
  }
}
