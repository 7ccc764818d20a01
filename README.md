# Payetools.Hmrc.Common in Dafny

This project models the parts of Payetools.Hmrc.Common that have behaviour. The library holds the
HMRC RTI (PAYE Real Time Information) payload records for the Full Payment Submission (FPS),
the Employer Payment Summary (EPS) and the NINO Verification Request (NVR). The modelled parts are:

- **`SerializationOptionsProvider`** (`serialisation.dfy`) maps interfaces to implementations for
  System.Text.Json. It is a class whose `typeMappings` field is a `seq` of (interface,
  implementation) pairs.
  - `AddTypeMapping` appends to `typeMappings`, or fails fast.
  - `GetOptions` keeps both of the source's `ForEach` loops. It builds a
    `DefaultJsonTypeInfoResolver` whose modifiers mirror the mappings.
  - `GetRtiDocumentSerialisationOptions` registers the fixed table for one document kind
    (`DocumentMappings`) and then builds the options.
  - The resolver's effect is `FactoryFor`: the modifiers run in order and each one that matches
    overwrites `CreateObject`. `LastImplementation` is an independent definition of "the last
    registration wins", and the lemmas prove the two agree.
  - `Type.IsAssignableFrom` is the parameter `isAssignableFrom`. The build-time
    `#if NET7_0_OR_GREATER` switch is the parameter `targetsNet7`.
- **EPS data** (`employer_payment_summary.dfy`): the validating constructor is a function that
  returns `Result`. Its three guards run in source order, and `Valid` is the invariant every
  constructed record keeps.
- **Names.**
  - `contact_name.dfy` models `ContactName`: its constructors, `Empty`, the string-builder
    `ToString(bool)` (a method proved equal to `Render`) and the .NET helpers it uses
    (`IsNullOrWhiteSpace`, `string.Join`, `string.Split`).
  - `employee_partner.dfy` models `EmployeePartner`: the forename/initials choice and the array
    built by `GetForenames`.
- **Small records and computations.**
  - `RecoverableAmountsYtd.AreAllValuesZero` (`recoverable_amounts.dfy`).
  - `ToSender` (`sender_type.dfy`).
  - The `BankAccount` constructor (`bank_account.dfy`).
  - The `IRenvelopeData` constructors (`envelope.dfy`).
  - The `FullPaymentSubmissionData` constructor (`full_payment_submission.dfy`).
  - The `IRheaderContact` constructors (`header_contact.dfy`).

How the C# maps onto Dafny:
- C# `null` becomes `Wrappers.Nullable`.
- A thrown exception becomes `Wrappers.Result.Err`, carrying the source's message and parameter
  name.
- `decimal` becomes `real`.
- The external value types DateRange, DateTime and StateAidForEmploymentAllowance, and the
  field-only records the constructors only store, are opaque tokens (`opaque_records.dfy`).
- An NI number is a plain `string` (`employee_partner.dfy`); the conversion to and from the
  external `NiNumber` type is not modelled.
- C# optional parameters that default to null have the default `:= Null` in the model.

## Model

| member | source | states |
|---|---|---|
| `Serialisation.SerializationOptionsProvider.constructor` | src/Payetools.Hmrc.Common/Serialisation/SerializationOptionsProvider.cs:22 | a new provider has no mappings |
| `Serialisation.SerializationOptionsProvider.AddTypeMapping` | src/Payetools.Hmrc.Common/Serialisation/SerializationOptionsProvider.cs:44-52 | a non-assignable pair throws InvalidOperationException with the source's message and leaves the list unchanged; otherwise exactly that pair is appended after all earlier ones (no de-duplication) and the provider itself is returned |
| `Serialisation.SerializationOptionsProvider.GetOptions` | src/Payetools.Hmrc.Common/Serialisation/SerializationOptionsProvider.cs:60-86 | below .NET 7 always NotSupportedException; otherwise options whose settings are copied from `initialOptions` or are fresh defaults, whose resolver has one modifier per mapping in registration order, and under which every type gets the factory of its last registered mapping (default construction if none) |
| `Serialisation.SerializationOptionsProvider.GetRtiDocumentSerialisationOptions` | src/Payetools.Hmrc.Common/Serialisation/SerializationOptionsProvider.cs:98-146 | succeeds exactly when every mapping of the kind's table is assignable and the build targets .NET 7; a non-assignable mapping gives InvalidOperationException; the settings come from `options` or, when null, from the static defaults; the resolver mirrors the kind's table |
| `Serialisation.DocumentMappings` | src/Payetools.Hmrc.Common/Serialisation/SerializationOptionsProvider.cs:107-142 | FPS registers 13 mappings, EPS 9, NVR 7; the first four are the shared header, response options, credentials and final submission mappings in that order; the fifth maps the kind's top-level interface to the target type; the rest are the kind's library mappings |
| `Serialisation.DefaultSerialisationOptions` | src/Payetools.Hmrc.Common/Serialisation/SerializationOptionsProvider.cs:24-33 | the default base: camelCase property names, indented output, nulls ignored when writing, enums written as camelCase strings |
| `Serialisation.FreshOptions` | src/Payetools.Hmrc.Common/Serialisation/SerializationOptionsProvider.cs:80 | options started fresh carry the serialiser's own defaults: no naming policy, not indented, nothing ignored, no converters |
| `Serialisation.FactoryFor` | src/Payetools.Hmrc.Common/Serialisation/SerializationOptionsProvider.cs:64-76 | the resolver builds a type with default construction when no modifier names it, and otherwise as the implementation of the last modifier that does |
| `Serialisation.ApplyModifiers` | src/Payetools.Hmrc.Common/Serialisation/SerializationOptionsProvider.cs:64-76 | running the modifiers in order keeps the type, leaves an unmatched type's factory as it was, and ends with the implementation of the last matching modifier |
| `Serialisation.LastImplementation` | src/Payetools.Hmrc.Common/Serialisation/SerializationOptionsProvider.cs:49 | the implementation chosen for a type is null exactly when no mapping names the type, and otherwise is one registered for it |
| `Serialisation.LastImplementationIsLastMapping` | src/Payetools.Hmrc.Common/Serialisation/SerializationOptionsProvider.cs:66-72 | the implementation chosen is that of the last mapping registered for the type |
| `Serialisation.LastMappingExists` | src/Payetools.Hmrc.Common/Serialisation/SerializationOptionsProvider.cs:66-72 | a type registered at least once has a last registration |
| `Serialisation.ResolverFollowsLastMapping` | src/Payetools.Hmrc.Common/Serialisation/SerializationOptionsProvider.cs:64-76 | a resolver whose modifiers mirror the mappings builds each registered type as its last mapping's implementation and leaves unregistered types to default construction |
| `Serialisation.LaterRegistrationWins` | src/Payetools.Hmrc.Common/Serialisation/SerializationOptionsProvider.cs:49 | registering an interface again makes the new implementation the one used, and leaves every other type's resolution unchanged |
| `Serialisation.RegisterSameInterfaceTwice` | src/Payetools.Hmrc.Common/Serialisation/SerializationOptionsProvider.cs:49-51 | two registrations of one interface leave two entries, and the options build the interface as the later implementation |
| `Serialisation.TableAcceptedIffTargetImplementsTopLevel` | src/Payetools.Hmrc.Common/Serialisation/SerializationOptionsProvider.cs:113-142 | when the library's classes implement their interfaces, the table for a kind is accepted exactly when the target type implements the kind's top-level interface |
| `EmployerPaymentSummary.NewEmployerPaymentSummaryData` | src/Payetools.Hmrc.Common/Rti/Model/EmployerPaymentSummaryData.cs:86-117 | both date ranges give ArgumentException naming noPaymentDates; otherwise a date range with recoverable amounts names recoverableAmountsYtd; otherwise a true EA indicator without a state aid sector names deMinimisStateAid; it succeeds exactly when none fires, and then the record is valid, copies the envelope and holds every argument |
| `EmployerPaymentSummary.FirstBrokenRule` | src/Payetools.Hmrc.Common/Rti/Model/EmployerPaymentSummaryData.cs:99-106 | the error for an invalid record is an ArgumentException from the first rule broken |
| `EmployerPaymentSummary.ConstructorAcceptsExactlyValid` | src/Payetools.Hmrc.Common/Rti/Model/EmployerPaymentSummaryData.cs:99-116 | rebuilding any record from its own values gives it back when it satisfies the three invariants, and otherwise gives the first broken rule's error |
| `EmployerPaymentSummary.IndicatorNotTrueNeverNeedsStateAid` | src/Payetools.Hmrc.Common/Rti/Model/EmployerPaymentSummaryData.cs:105-106 | a false or null EA indicator never needs a state aid sector |
| `ContactNames.IsNullOrWhiteSpace` | src/Payetools.Hmrc.Common/Rti/Model/ContactName.cs:121-127 | null and "" are null-or-white-space; a string whose first character is not white space is not |
| `ContactNames.JoinWithSpace` | src/Payetools.Hmrc.Common/Rti/Model/ContactName.cs:125 | `string.Join(' ', parts)` of no parts is ""; otherwise it is as long as the parts together plus one separator between each pair of neighbours |
| `ContactNames.Render` | src/Payetools.Hmrc.Common/Rti/Model/ContactName.cs:117-133 | the rendered text always ends with the surname (nothing for a null surname) |
| `ContactNames.SplitOnSpace` | src/Payetools.Hmrc.Common/Rti/Model/EmployeePartner.cs:83 | `Split(' ')` gives one more segment than there are spaces, no segment holds a space, and joining the segments with spaces restores the string |
| `ContactNames.SplitJoinRoundTrip` | src/Payetools.Hmrc.Common/Rti/Model/ContactName.cs:125 | splitting a space-joined list of space-free parts gives the parts back |
| `ContactNames.JoinWithSpacePrepend` | src/Payetools.Hmrc.Common/Rti/Model/ContactName.cs:125 | joining is compatible with extending the first part |
| `ContactNames.SplitSpaceFree` | src/Payetools.Hmrc.Common/Rti/Model/EmployeePartner.cs:83 | a space-free prefix becomes the first segment |
| `ContactNames.ForSerialisation` | src/Payetools.Hmrc.Common/Rti/Model/ContactName.cs:43-45 | the parameterless constructor leaves every property null |
| `ContactNames.WithTitleAndForenames` | src/Payetools.Hmrc.Common/Rti/Model/ContactName.cs:74-81 | the title is kept as given, so a null title stays null; the forenames and surname are stored; the initials stay null |
| `ContactNames.WithTitleAndInitials` | src/Payetools.Hmrc.Common/Rti/Model/ContactName.cs:90-98 | the forenames are an empty array; the title, initials and surname are stored |
| `ContactNames.WithForenames` | src/Payetools.Hmrc.Common/Rti/Model/ContactName.cs:52-55 | the two-argument forename constructor gives the title "" and leaves the initials null |
| `ContactNames.WithInitials` | src/Payetools.Hmrc.Common/Rti/Model/ContactName.cs:63-66 | the two-argument initials constructor gives the title "" and no forenames |
| `ContactNames.Empty` | src/Payetools.Hmrc.Common/Rti/Model/ContactName.cs:103-104 | `Empty` has title "", no forenames, initials "" and surname "" |
| `ContactNames.ToString` | src/Payetools.Hmrc.Common/Rti/Model/ContactName.cs:117-133 | the appends build exactly the title part, the forenames part, the initials part and the surname, in that order |
| `ContactNames.ToStringWithoutTitle` | src/Payetools.Hmrc.Common/Rti/Model/ContactName.cs:110 | `ToString()` is `ToString(false)` |
| `ContactNames.TitlePrefixIff` | src/Payetools.Hmrc.Common/Rti/Model/ContactName.cs:121-122 | the title and a space are prefixed exactly when the title is asked for and is not null or white space; otherwise the text is the title-free one |
| `ContactNames.InitialsSegmentIff` | src/Payetools.Hmrc.Common/Rti/Model/ContactName.cs:127-128 | the initials and a space come right before the surname exactly when the initials are not null or white space |
| `ContactNames.NoSeparatorAfterForenames` | src/Payetools.Hmrc.Common/Rti/Model/ContactName.cs:124-130 | a forename-based name renders as its forenames joined by single spaces followed directly by the surname, with no separator between them |
| `ContactNames.JohnSmithHasNoSeparator` | src/Payetools.Hmrc.Common/Rti/Model/ContactName.cs:124-130 | the forename "John" and surname "Smith" render as "JohnSmith" |
| `ContactNames.InitialsNameRendering` | src/Payetools.Hmrc.Common/Rti/Model/ContactName.cs:90-98 | an initials-based name renders as initials, space, surname, and blank initials disappear |
| `ContactNames.EmptyRendersEmpty` | src/Payetools.Hmrc.Common/Rti/Model/ContactName.cs:103-104 | `Empty` renders as "" with or without the title |
| `EmployeePartners.FromNameParts` | src/Payetools.Hmrc.Common/Rti/Model/EmployeePartner.cs:50-59 | non-empty forenames give a forename-based name with title "" and no initials (the initials argument is ignored); empty forenames with initials give an initials-based name with no forenames; neither throws InvalidOperationException |
| `EmployeePartners.GetForenames` | src/Payetools.Hmrc.Common/Rti/Model/EmployeePartner.cs:74-90 | a null first name gives []; no middle name gives [FirstName]; a middle-names string that is claimed but null throws NullReferenceException; otherwise exactly FirstName followed by the middle names split at every space (empty segments included), two more than the spaces in the middle names, and the split part joins back to the middle names |
| `EmployeePartners.FromPartnerDetails` | src/Payetools.Hmrc.Common/Rti/Model/EmployeePartner.cs:65-72 | the result is the name-parts constructor applied to the NI number, the forenames `GetForenames` yields ([FirstName], or FirstName followed by the split middle names), the initials and the last name; so a person with a first name gets title "", those forenames, no initials and the last name as surname; a claimed but null middle-names string throws NullReferenceException; with no first name the outcome is that of the initials and surname alone |
| `EmployeePartners.MiddleNamesWithoutSpaces` | src/Payetools.Hmrc.Common/Rti/Model/EmployeePartner.cs:82-83 | a middle-names string with no space is one forename |
| `RecoverableAmounts.Amounts` | src/Payetools.Hmrc.Common/Rti/Model/RecoverableAmountsYtd.cs:25-80 | the class declares eleven amounts (no SNCP fields) |
| `RecoverableAmounts.AreAllValuesZero` | src/Payetools.Hmrc.Common/Rti/Model/RecoverableAmountsYtd.cs:86-97 | when every amount is zero the flag is true (the converse fails, see Findings) |
| `RecoverableAmounts.AreAllValuesZeroIsSumTest` | src/Payetools.Hmrc.Common/Rti/Model/RecoverableAmountsYtd.cs:86-97 | the flag is "the sum of the eleven amounts is zero" |
| `RecoverableAmounts.NonNegativeSumZeroIffAllZero` | src/Payetools.Hmrc.Common/Rti/Model/RecoverableAmountsYtd.cs:86-97 | non-negative amounts sum to zero exactly when all are zero |
| `RecoverableAmounts.NonNegativeAmountsZeroIffAllZero` | src/Payetools.Hmrc.Common/Rti/Model/RecoverableAmountsYtd.cs:86-97 | with no negative amount, the flag is true exactly when every amount is zero |
| `RecoverableAmounts.ZeroAndSingleNonZero` | src/Payetools.Hmrc.Common/Rti/Model/RecoverableAmountsYtd.cs:86-97 | all amounts zero gives true; exactly one non-zero amount gives false |
| `RecoverableAmounts.ZeroSum` | src/Payetools.Hmrc.Common/Rti/Model/RecoverableAmountsYtd.cs:86-97 | zeros sum to zero |
| `RecoverableAmounts.SingleNonZeroSum` | src/Payetools.Hmrc.Common/Rti/Model/RecoverableAmountsYtd.cs:86-97 | a list that is zero but at one place sums to that amount |
| `RecoverableAmounts.TaxMonthIgnored` | src/Payetools.Hmrc.Common/Rti/Model/RecoverableAmountsYtd.cs:20 | the tax month has no effect on the flag |
| `RecoverableAmounts.CancellingAmountsReportZero` | src/Payetools.Hmrc.Common/Rti/Model/RecoverableAmountsYtd.cs:83-97 | amounts that cancel out (1 and -1) give true although not every amount is zero |
| `RecoverableAmounts.EveryAmountIsZeroMeansNoInformation` | src/Payetools.Hmrc.Common/Rti/Model/RecoverableAmountsYtd.cs:83-85 | the documented check holds exactly when every amount is zero, implies the sum test, and agrees with it when no amount is negative |
| `SenderTypes.AllSenderTypes` | src/Payetools.Hmrc.Common/Rti/IRheaderSenderType.cs:13-44 | the enum has exactly ten members, Individual to Other, each at the index of its numeric value |
| `SenderTypes.ToSender` | src/Payetools.Hmrc.Common/Rti/IRheaderSenderType.cs:56-61 | ActingInCapacity is sent as "Acting in Capacity", every other member as its identifier, and the text contains a space exactly for ActingInCapacity |
| `SenderTypes.OnlyActingInCapacityIsSpelledOut` | src/Payetools.Hmrc.Common/Rti/IRheaderSenderType.cs:56-61 | only ActingInCapacity differs from its identifier, and it gives "Acting in Capacity"; Employer gives "Employer" |
| `SenderTypes.ToSenderInjective` | src/Payetools.Hmrc.Common/Rti/IRheaderSenderType.cs:56-61 | different sender types give different texts |
| `BankAccounts.NewBankAccount` | src/Payetools.Hmrc.Common/Rti/Model/BankAccount.cs:47-53 | a null name, number or sort code becomes "", a non-null one is stored unchanged, the building society reference is stored as given, and nothing is rejected |
| `BankAccounts.BankAccountRoundTrip` | src/Payetools.Hmrc.Common/Rti/Model/BankAccount.cs:47-53 | every account is rebuilt from its own values, and null normalises to the same account as "" |
| `BankAccounts.FormatsNotEnforced` | src/Payetools.Hmrc.Common/Rti/Model/BankAccount.cs:22-31 | an account number and sort code outside the documented formats are stored as given |
| `Envelopes.NewEnvelopeData` | src/Payetools.Hmrc.Common/Rti/Model/IRenvelopeData.cs:48-60 | all five values are stored; the PAYE and accounts office references are not swapped |
| `Envelopes.CopyEnvelopeData` | src/Payetools.Hmrc.Common/Rti/Model/IRenvelopeData.cs:66-73 | the copy has the five values of the source |
| `Envelopes.EnvelopeRoundTrip` | src/Payetools.Hmrc.Common/Rti/Model/IRenvelopeData.cs:48-73 | rebuilding an envelope from its own values gives it back, and copying a copy equals copying the original |
| `FullPaymentSubmission.NewFullPaymentSubmissionData` | src/Payetools.Hmrc.Common/Rti/Model/FullPaymentSubmissionData.cs:37-47 | the envelope values are copied, the corporation tax reference is kept (null included), the entries keep their order and number, and the final submission data is kept (null when omitted) |
| `HeaderContacts.DefaultContact` | src/Payetools.Hmrc.Common/Rti/Model/IRheaderContact.cs:39-43 | the default contact has type None and the empty name |
| `HeaderContacts.DefaultContactRendersEmpty` | src/Payetools.Hmrc.Common/Rti/Model/IRheaderContact.cs:42 | the default contact's name renders as "" |

Three constructors are the Dafny datatype constructors themselves, because each one stores its
arguments unchanged:
- `EmployeePartners.EmployeePartner` is the JSON constructor `EmployeePartner(niNumber, name)`.
- `HeaderContacts.IRheaderContact` is the two-argument `IRheaderContact(contactType, name)`.
- `Envelopes.IRenvelopeData` holds the envelope's five get-only properties.

## Findings

| source | as written | input that shows it | evidently intended | confidence | as-written member | corrected member |
|---|---|---|---|---|---|---|
| src/Payetools.Hmrc.Common/Rti/Model/RecoverableAmountsYtd.cs:83-97 | `AreAllValuesZero` tests whether the sum of the eleven amounts is zero | SMPRecovered = 1, SPPRecovered = -1, every other amount 0: the flag is true | true only when every amount is zero, as its documentation says | medium, not executed (amounts are normally non-negative, and then the two agree) | `RecoverableAmounts.CancellingAmountsReportZero` | `RecoverableAmounts.EveryAmountIsZeroMeansNoInformation` |

`RecoverableAmounts.AreAllValuesZero` models the code as written. `RecoverableAmounts.EveryAmountIsZero`
is the documented check. No other part of the model reads either one.

## Left out

- System.Text.Json itself is not modelled. This covers `DefaultJsonTypeInfoResolver`, how
  `JsonTypeInfo.CreateObject` is used while deserialising, `Activator.CreateInstance` with
  `nonPublic: true`, and the converters. The resolver is the pure lookup `FactoryFor`, and the
  options are a plain record.
- The CLR type system is not modelled. Whether a class implements an interface is the given
  relation `isAssignableFrom`.
- Out-of-range `IRheaderSenderType` values are not modelled. In C#, `ToSender` on a value cast from
  an undeclared integer returns that number's digits through `sender.ToString()`. The model's
  closed datatype has only the ten declared members.
- Only the three named `RtiDocumentType` members exist in the model. An out-of-range enum value
  cast from an integer would register only the four shared mappings in C#.
- The `#if NET7_0_OR_GREATER` compile-time switch is the run-time parameter `targetsNet7`. It and `isAssignableFrom` come before the optional `initialOptions`/`options` parameter, because parameters with defaults come last.
- `decimal` is modelled as exact reals. The overflow `decimal` addition can raise on the
  eleven-term sum is not modelled.
- The interface's SNCP amounts do not appear, because `RecoverableAmountsYtd` does not declare
  them.
- `string.Join` treats a null array element as empty. The model's forename lists hold
  non-null strings.
- `INamedPerson.HasMiddleName` and `InitialsAsString` are computed outside this repository. The
  model takes them as given fields, and NiNumber conversion is an opaque string.
- The other records are only tokens: DateRange, DateTime, StateAidForEmploymentAllowance, the
  apprentice levy, the final submission data and the FPS employee entries. Their own fields and
  the interfaces are field-only and have no behaviour.
- `FullPaymentSubmissionData`'s `ToArray` is modelled by storing the sequence. The model does not
  capture that it allocates a fresh array, which is not aliased to the caller's enumerable.
- The older declarations under `Rti/Data/`, `FpsEmploymentPaymentData` (including
  `GetBacsHashCode`, which returns null for every tax year), and `Address.FromPostalAddress`
  are not part of this model.
- There is no transport, gateway or XML generation in this repository.
