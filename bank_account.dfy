/** The bank account an EPS gives for PAYE repayments (BankAccount.cs). */
module BankAccounts {
  import opened Wrappers

  /** `BankAccount`: name, number and sort code are never null once constructed. */
  datatype BankAccount = BankAccount(
    accountName: string,
    accountNumber: string,
    sortCode: string,
    buildingSocietyReference: Nullable<string>)

  /** The constructor: a null name, number or sort code becomes the empty string, the building
      society reference (null when omitted) is kept as given, and no input is rejected; the
      documented 8-digit number and 6-digit sort code formats are not checked. */
  function NewBankAccount(accountName: Nullable<string>, accountNumber: Nullable<string>,
                          sortCode: Nullable<string>, buildingSocietyReference: Nullable<string> := Null)
    : (r: BankAccount)
    ensures accountName.Null? ==> r.accountName == ""
    ensures accountName.NonNull? ==> r.accountName == accountName.value
    ensures accountNumber.Null? ==> r.accountNumber == ""
    ensures accountNumber.NonNull? ==> r.accountNumber == accountNumber.value
    ensures sortCode.Null? ==> r.sortCode == ""
    ensures sortCode.NonNull? ==> r.sortCode == sortCode.value
    ensures r.buildingSocietyReference == buildingSocietyReference
  {
    BankAccount(accountName.ValueOr(""), accountNumber.ValueOr(""), sortCode.ValueOr(""),
                buildingSocietyReference)
  }

  /** Every account can be rebuilt from its own values, and passing null for a value is the
      same as passing the empty string: normalising twice changes nothing. */
  lemma BankAccountRoundTrip(b: BankAccount)
    ensures NewBankAccount(NonNull(b.accountName), NonNull(b.accountNumber), NonNull(b.sortCode),
                           b.buildingSocietyReference) == b
    ensures NewBankAccount(Null, Null, Null) == NewBankAccount(NonNull(""), NonNull(""), NonNull(""))
  {
  }

  /** Values that break the documented formats are stored as they are. */
  lemma FormatsNotEnforced()
    ensures NewBankAccount(NonNull("Ann"), NonNull("12"), NonNull("ab-cd"), Null).accountNumber == "12"
    ensures NewBankAccount(NonNull("Ann"), NonNull("12"), NonNull("ab-cd"), Null).sortCode == "ab-cd"
  {
  }
}
