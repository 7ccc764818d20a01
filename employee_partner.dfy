/** An employee's partner, needed for shared parental pay (EmployeePartner.cs). */
module EmployeePartners {
  import opened Wrappers
  import opened ContactNames

  const NoNameMessage := "Either one or more forenames or a valid set of initials must be supplied"

  /** An employee partner. The datatype constructor is the JSON constructor
      `EmployeePartner(string niNumber, ContactName name)`, which stores both unchanged. */
  datatype EmployeePartner = EmployeePartner(niNumber: string, name: ContactName)

  /** The parts of the external `INamedPerson` the partner reads. `hasMiddleName` and
      `initialsAsString` are computed by that external type and are taken as given. */
  datatype NamedPerson = NamedPerson(
    firstName: Nullable<string>,
    middleNames: Nullable<string>,
    hasMiddleName: bool,
    lastName: string,
    initialsAsString: Nullable<string>)

  /** The external `IEmployeePartnerDetails`; the NI number is an opaque string. */
  datatype EmployeePartnerDetails = EmployeePartnerDetails(niNumber: string, nameInfo: NamedPerson)

  /** `EmployeePartner(NiNumber, string[] forenames, string? initials, string surname)`:
      forenames win when there are any (the initials are then ignored), otherwise the
      initials are used, and with neither the constructor throws. */
  function FromNameParts(niNumber: string, forenames: seq<string>, initials: Nullable<string>, surname: string)
    : (r: Result<EmployeePartner>)
    ensures r.Err? <==> |forenames| == 0 && initials.Null?
    ensures r.Err? ==> r.error == InvalidOperationException(NoNameMessage)
    ensures r.Ok? ==> r.value.niNumber == niNumber && r.value.name.surname == NonNull(surname)
                      && r.value.name.title == NonNull("")
    ensures r.Ok? && |forenames| > 0 ==>
              r.value.name.forenames == NonNull(forenames) && r.value.name.initials.Null?
    ensures r.Ok? && |forenames| == 0 ==>
              r.value.name.forenames == NonNull([]) && r.value.name.initials == initials
  {
    if |forenames| > 0 then Ok(EmployeePartner(niNumber, WithForenames(forenames, surname)))
    else match initials
      case NonNull(inits) => Ok(EmployeePartner(niNumber, WithInitials(inits, surname)))
      case Null => Err(InvalidOperationException(NoNameMessage))
  }

  /** `GetForenames`: no forenames for a null first name; just the first name when there is
      no middle name; otherwise the first name followed by the middle names split at every
      space, empty segments included. A missing middle-names string that `hasMiddleName`
      claims is there is dereferenced and throws. */
  method GetForenames(nameInfo: NamedPerson) returns (r: Result<seq<string>>)
    ensures nameInfo.firstName.Null? ==> r == Ok([])
    ensures nameInfo.firstName.NonNull? && !nameInfo.hasMiddleName ==> r == Ok([nameInfo.firstName.value])
    ensures nameInfo.firstName.NonNull? && nameInfo.hasMiddleName && nameInfo.middleNames.Null? ==>
              r == Err(NullReferenceException)
    ensures nameInfo.firstName.NonNull? && nameInfo.hasMiddleName && nameInfo.middleNames.NonNull? ==>
              && r == Ok([nameInfo.firstName.value] + SplitOnSpace(nameInfo.middleNames.value))
              && |r.value| == 2 + SpaceCount(nameInfo.middleNames.value)
              && JoinWithSpace(r.value[1..]) == nameInfo.middleNames.value
  {
    if nameInfo.firstName.Null? {
      return Ok([]);
    }
    if !nameInfo.hasMiddleName {
      return Ok([nameInfo.firstName.value]);
    }
    if nameInfo.middleNames.Null? {
      return Err(NullReferenceException);
    }
    var middleNames := SplitOnSpace(nameInfo.middleNames.value);
    var forenames := new string[1 + |middleNames|];
    forenames[0] := nameInfo.firstName.value;
    // The middle names are copied in after the first name.
    var i := 0;
    while i < |middleNames|
      invariant 0 <= i <= |middleNames|
      invariant forenames[0] == nameInfo.firstName.value
      invariant forall k :: 0 <= k < i ==> forenames[1 + k] == middleNames[k]
    {
      forenames[1 + i] := middleNames[i];
      i := i + 1;
    }
    assert forenames[..] == [nameInfo.firstName.value] + middleNames;
    return Ok(forenames[..]);
  }

  /** `EmployeePartner(IEmployeePartnerDetails)`: the forenames come from `GetForenames`,
      the initials and surname from the name details, and the name-parts constructor decides
      between them. */
  method FromPartnerDetails(details: EmployeePartnerDetails) returns (r: Result<EmployeePartner>)
    ensures var n := details.nameInfo;
            n.firstName.NonNull? && !n.hasMiddleName ==>
              r == FromNameParts(details.niNumber, [n.firstName.value], n.initialsAsString, n.lastName)
    ensures var n := details.nameInfo;
            n.firstName.NonNull? && n.hasMiddleName && n.middleNames.NonNull? ==>
              r == FromNameParts(details.niNumber, [n.firstName.value] + SplitOnSpace(n.middleNames.value),
                                 n.initialsAsString, n.lastName)
    ensures var n := details.nameInfo;
            n.firstName.NonNull? && !(n.hasMiddleName && n.middleNames.Null?) ==>
              && r.Ok?
              && r.value.niNumber == details.niNumber
              && r.value.name.title == NonNull("")
              && r.value.name.forenames.NonNull? && |r.value.name.forenames.value| > 0
              && r.value.name.forenames.value[0] == n.firstName.value
              && r.value.name.initials.Null?
              && r.value.name.surname == NonNull(n.lastName)
    ensures var n := details.nameInfo;
            n.firstName.NonNull? && n.hasMiddleName && n.middleNames.Null? ==> r == Err(NullReferenceException)
    ensures var n := details.nameInfo;
            n.firstName.Null? ==> r == FromNameParts(details.niNumber, [], n.initialsAsString, n.lastName)
  {
    var forenames := GetForenames(details.nameInfo);
    if forenames.Err? {
      return Err(forenames.error);
    }
    r := FromNameParts(details.niNumber, forenames.value,
                       details.nameInfo.initialsAsString, details.nameInfo.lastName);
  }

  /** Middle names without spaces come back one forename each. */
  lemma MiddleNamesWithoutSpaces(middleNames: string)
    requires ' ' !in middleNames
    ensures SplitOnSpace(middleNames) == [middleNames]
  {
    SplitJoinRoundTrip([middleNames]);
  }
}
