/** The name portion of an RTI contact (ContactName.cs) and the .NET string
    operations it relies on: `string.IsNullOrWhiteSpace`, `string.Join(' ', ...)` and,
    for the employee partner's middle names, `string.Split(' ')`. */
module ContactNames {
  import opened Wrappers

  // ---------------------------------------------------------------------------
  // .NET string helpers
  // ---------------------------------------------------------------------------

  /** `char.IsWhiteSpace`: the Unicode space separators, line and paragraph separators,
      U+0009 to U+000D, U+0085 and U+00A0. */
  predicate IsWhiteSpace(c: char) {
    || c == ' ' || '\t' <= c <= '\r' || c == '\U{0085}' || c == '\U{00A0}' || c == '\U{1680}'
    || '\U{2000}' <= c <= '\U{200A}' || c == '\U{2028}' || c == '\U{2029}' || c == '\U{202F}'
    || c == '\U{205F}' || c == '\U{3000}'
  }

  /** `string.IsNullOrWhiteSpace`: null, the empty string and strings made only of white
      space; a string that starts with any other character is not. */
  predicate IsNullOrWhiteSpace(s: Nullable<string>)
    ensures s.Null? || s == NonNull("") ==> IsNullOrWhiteSpace(s)
    ensures s.NonNull? && |s.value| > 0 && !IsWhiteSpace(s.value[0]) ==> !IsNullOrWhiteSpace(s)
  {
    match s
    case Null => true
    case NonNull(v) => forall k :: 0 <= k < |v| ==> IsWhiteSpace(v[k])
  }

  /** The combined length of `parts`. */
  function TotalLength(parts: seq<string>): nat {
    if parts == [] then 0 else |parts[0]| + TotalLength(parts[1..])
  }

  /** `string.Join(' ', parts)`: the parts with exactly one space between neighbours, so the
      text is as long as the parts together plus one separator fewer than there are parts. */
  function JoinWithSpace(parts: seq<string>): (r: string)
    ensures |parts| == 0 ==> r == ""
    ensures |parts| > 0 ==> |r| == TotalLength(parts) + |parts| - 1
  {
    if |parts| == 0 then ""
    else if |parts| == 1 then parts[0]
    else parts[0] + " " + JoinWithSpace(parts[1..])
  }

  /** Joining a list whose first part is extended at the front extends the result. */
  lemma {:induction false} JoinWithSpacePrepend(c: char, parts: seq<string>)
    requires |parts| > 0
    ensures JoinWithSpace([[c] + parts[0]] + parts[1..]) == [c] + JoinWithSpace(parts)
  {
    var q := [[c] + parts[0]] + parts[1..];
    assert q[1..] == parts[1..];
  }

  /** The number of spaces in `s`. */
  function SpaceCount(s: string): nat {
    if s == [] then 0 else (if s[0] == ' ' then 1 else 0) + SpaceCount(s[1..])
  }

  /** `s.Split(' ')`: the segments between spaces, empty segments included, so a string with
      n spaces has n + 1 segments. Joining them back with spaces gives `s` again. */
  function SplitOnSpace(s: string): (parts: seq<string>)
    ensures |parts| == 1 + SpaceCount(s)
    ensures forall k :: 0 <= k < |parts| ==> ' ' !in parts[k]
    ensures JoinWithSpace(parts) == s
  {
    if s == [] then [""]
    else
      var rest := SplitOnSpace(s[1..]);
      if s[0] == ' ' then
        assert ([""] + rest)[1..] == rest;
        [""] + rest
      else
        JoinWithSpacePrepend(s[0], rest);
        assert s == [s[0]] + s[1..];
        [[s[0]] + rest[0]] + rest[1..]
  }

  /** Splitting a space-joined list of space-free parts gives the parts back. */
  lemma {:induction false} SplitJoinRoundTrip(parts: seq<string>)
    requires |parts| > 0
    requires forall k :: 0 <= k < |parts| ==> ' ' !in parts[k]
    ensures SplitOnSpace(JoinWithSpace(parts)) == parts
  {
    var head := parts[0];
    if |parts| == 1 {
      SplitSpaceFree(head, []);
    } else {
      SplitJoinRoundTrip(parts[1..]);
      var tail := JoinWithSpace(parts[1..]);
      SplitSpaceFree(head, [' '] + tail);
      assert JoinWithSpace(parts) == head + ([' '] + tail);
      assert ([' '] + tail)[1..] == tail;
      assert SplitOnSpace([' '] + tail) == [""] + SplitOnSpace(tail);
    }
  }

  /** A space-free prefix is glued onto the first segment of what follows it. */
  lemma {:induction false} SplitSpaceFree(head: string, rest: string)
    requires ' ' !in head
    requires rest == [] || rest[0] == ' '
    ensures rest == [] ==> SplitOnSpace(head + rest) == [head]
    ensures rest != [] ==> SplitOnSpace(head + rest) == [head] + SplitOnSpace(rest[1..])
  {
    if head == [] {
      assert head + rest == rest;
      if rest != [] {
        assert SplitOnSpace(rest) == [""] + SplitOnSpace(rest[1..]);
      }
    } else {
      SplitSpaceFree(head[1..], rest);
      var s := head + rest;
      assert s[0] == head[0] && s[0] != ' ';
      assert s[1..] == head[1..] + rest;
      var tail := SplitOnSpace(s[1..]);
      assert tail[0] == head[1..];
      assert [head[0]] + head[1..] == head;
      assert SplitOnSpace(s) == [head] + tail[1..];
    }
  }

  // ---------------------------------------------------------------------------
  // ContactName
  // ---------------------------------------------------------------------------

  /** A contact name. `forenames` and `surname` are null only after the parameterless
      (serialisation) constructor; `initials` is null after the forename constructors. */
  datatype ContactName = ContactName(
    title: Nullable<string>,
    forenames: Nullable<seq<string>>,
    initials: Nullable<string>,
    surname: Nullable<string>)

  /** `ContactName()`: every property left at its default, null. */
  function ForSerialisation(): (n: ContactName)
    ensures n.title.Null? && n.forenames.Null? && n.initials.Null? && n.surname.Null?
  {
    ContactName(Null, Null, Null, Null)
  }

  /** `ContactName(string? title, string[] forenames, string surname)`: a forename-based name;
      the title is kept only when non-null, so a null title leaves `Title` null. */
  function WithTitleAndForenames(title: Nullable<string>, forenames: seq<string>, surname: string): (n: ContactName)
    ensures n.title == title && n.forenames == NonNull(forenames)
    ensures n.initials.Null? && n.surname == NonNull(surname)
  {
    ContactName(title, NonNull(forenames), Null, NonNull(surname))
  }

  /** `ContactName(string? title, string initials, string surname)`: an initials-based name
      with an empty forename array. */
  function WithTitleAndInitials(title: Nullable<string>, initials: string, surname: string): (n: ContactName)
    ensures n.title == title && n.forenames == NonNull([])
    ensures n.initials == NonNull(initials) && n.surname == NonNull(surname)
  {
    ContactName(title, NonNull([]), NonNull(initials), NonNull(surname))
  }

  /** `ContactName(string[] forenames, string surname)`: empty title. */
  function WithForenames(forenames: seq<string>, surname: string): (n: ContactName)
    ensures n.title == NonNull("") && n.forenames == NonNull(forenames) && n.initials.Null?
    ensures n.surname == NonNull(surname)
  {
    WithTitleAndForenames(NonNull(""), forenames, surname)
  }

  /** `ContactName(string initials, string surname)`: empty title. */
  function WithInitials(initials: string, surname: string): (n: ContactName)
    ensures n.title == NonNull("") && n.forenames == NonNull([]) && n.initials == NonNull(initials)
    ensures n.surname == NonNull(surname)
  {
    WithTitleAndInitials(NonNull(""), initials, surname)
  }

  /** `ContactName.Empty`. */
  function Empty(): (n: ContactName)
    ensures n == ContactName(NonNull(""), NonNull([]), NonNull(""), NonNull(""))
  {
    WithTitleAndInitials(NonNull(""), "", "")
  }

  /** The title and a space, when the title is asked for and is not null or white space. */
  function TitlePart(name: ContactName, includeTitle: bool): string {
    if includeTitle && !IsNullOrWhiteSpace(name.title) then name.title.value + " " else ""
  }

  /** The forenames joined by single spaces, with no separator after them. */
  function ForenamesPart(name: ContactName): string {
    if name.forenames.NonNull? && |name.forenames.value| > 0 then JoinWithSpace(name.forenames.value) else ""
  }

  /** The initials and a space, when the initials are not null or white space. */
  function InitialsPart(name: ContactName): string {
    if !IsNullOrWhiteSpace(name.initials) then name.initials.value + " " else ""
  }

  /** The text `ToString(includeTitle)` produces: title part, forenames part, initials part,
      then the surname (nothing for a null surname), so it always ends with the surname. */
  function Render(name: ContactName, includeTitle: bool): (s: string)
    ensures var surname := name.surname.ValueOr("");
            |s| >= |surname| && s[|s| - |surname|..] == surname
  {
    TitlePart(name, includeTitle) + ForenamesPart(name) + InitialsPart(name) + name.surname.ValueOr("")
  }

  /** `ToString(bool includeTitle)`, appending to a string builder step by step. */
  method ToString(name: ContactName, includeTitle: bool) returns (s: string)
    ensures s == Render(name, includeTitle)
  {
    var sb := "";
    if includeTitle && !IsNullOrWhiteSpace(name.title) {
      sb := sb + name.title.value;
      sb := sb + " ";
    }
    assert sb == TitlePart(name, includeTitle);
    ghost var afterTitle := sb;
    if name.forenames.NonNull? && |name.forenames.value| > 0 {
      sb := sb + JoinWithSpace(name.forenames.value);
    }
    assert sb == afterTitle + ForenamesPart(name);
    ghost var afterForenames := sb;
    if !IsNullOrWhiteSpace(name.initials) {
      sb := sb + name.initials.value;
      sb := sb + " ";
    }
    assert sb == afterForenames + InitialsPart(name);
    ghost var afterInitials := sb;
    if name.surname.NonNull? {
      sb := sb + name.surname.value;
    }
    assert sb == afterInitials + name.surname.ValueOr("");
    s := sb;
  }

  /** `ToString()`, which is `ToString(false)`. */
  method ToStringWithoutTitle(name: ContactName) returns (s: string)
    ensures s == Render(name, false)
  {
    s := ToString(name, false);
  }

  /** The title and one space are prefixed exactly when the title is asked for and is not
      null or white space; the rest of the text does not depend on `includeTitle`. */
  lemma TitlePrefixIff(name: ContactName, includeTitle: bool)
    ensures includeTitle && !IsNullOrWhiteSpace(name.title) ==>
              Render(name, includeTitle) == name.title.value + " " + Render(name, false)
    ensures !(includeTitle && !IsNullOrWhiteSpace(name.title)) ==>
              Render(name, includeTitle) == Render(name, false)
  {
  }

  /** The initials and one space come right before the surname exactly when the initials are
      not null or white space; otherwise the text is that of the name without initials. */
  lemma InitialsSegmentIff(name: ContactName, includeTitle: bool)
    ensures !IsNullOrWhiteSpace(name.initials) ==>
              Render(name, includeTitle) == TitlePart(name, includeTitle) + ForenamesPart(name)
                                            + name.initials.value + " " + name.surname.ValueOr("")
    ensures IsNullOrWhiteSpace(name.initials) ==>
              Render(name, includeTitle) == Render(name.(initials := Null), includeTitle)
  {
  }

  /** A forename-based name renders its forenames and surname with no separator between
      them. */
  lemma NoSeparatorAfterForenames(title: Nullable<string>, forenames: seq<string>, surname: string)
    requires |forenames| > 0
    ensures Render(WithTitleAndForenames(title, forenames, surname), false) == JoinWithSpace(forenames) + surname
  {
  }

  /** The forename "John" and the surname "Smith" render as "JohnSmith". */
  lemma JohnSmithHasNoSeparator()
    ensures Render(WithForenames(["John"], "Smith"), false) == "JohnSmith"
  {
    NoSeparatorAfterForenames(NonNull(""), ["John"], "Smith");
    assert JoinWithSpace(["John"]) == "John";
  }

  /** An initials-based name renders as [title and space] initials, space, surname; a blank
      initials string disappears. */
  lemma InitialsNameRendering(title: Nullable<string>, initials: string, surname: string)
    ensures !IsNullOrWhiteSpace(NonNull(initials)) ==>
              Render(WithTitleAndInitials(title, initials, surname), false) == initials + " " + surname
    ensures IsNullOrWhiteSpace(NonNull(initials)) ==>
              Render(WithTitleAndInitials(title, initials, surname), false) == surname
  {
  }

  /** `ContactName.Empty` renders as the empty string, with or without its title. */
  lemma EmptyRendersEmpty(includeTitle: bool)
    ensures Render(Empty(), includeTitle) == ""
  {
  }
}
