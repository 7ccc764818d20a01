/** The optional contact placed in the IRheader (IRheaderContact.cs). */
module HeaderContacts {
  import opened Wrappers
  import opened ContactNames

  /** `IRheaderContactType`. */
  datatype IRheaderContactType = None | Principal | Agent

  /** An IRheader contact. The datatype constructor is the two-argument constructor
      `IRheaderContact(contactType, name)`, which stores both unchanged. */
  datatype IRheaderContact = IRheaderContact(contactType: IRheaderContactType, name: ContactName)

  /** `IRheaderContact()`: the unused contact, of type None with the empty name. */
  function DefaultContact(): (c: IRheaderContact)
    ensures c.contactType == None
    ensures c.name.title == NonNull("") && c.name.forenames == NonNull([])
    ensures c.name.initials == NonNull("") && c.name.surname == NonNull("")
  {
    IRheaderContact(None, Empty())
  }

  /** The default contact's name renders as the empty string. */
  lemma DefaultContactRendersEmpty(includeTitle: bool)
    ensures Render(DefaultContact().name, includeTitle) == ""
  {
    EmptyRendersEmpty(includeTitle);
  }
}
