/** The interface-to-implementation type mapping provider that configures
    System.Text.Json so that interface-typed properties of RTI documents can be
    deserialised (SerializationOptionsProvider.cs). */
module Serialisation {
  import opened Wrappers

  /** A `System.Type`: every interface and class the per-document table names, and
      any other type a caller passes (such as its own top-level document class). */
  datatype TypeToken =
    // interfaces shared by every document kind
    | ISubmissionHeader | IRtiSubmissionResponseOptions | IRtiCredentials | IFinalSubmissionData
    // FPS interfaces
    | IFullPaymentSubmission | IFullPaymentSubmissionData | IEmployeeDetails | IEmploymentData
    | IFpsEmploymentYtdData | IFpsEmploymentNationalInsuranceData | IFpsEmploymentPaymentData
    | IEmploymentNewStarterInfo | IFullPaymentSubmissionEmployeeEntry
    // EPS interfaces
    | IEmployerPaymentSummary | IEmployerPaymentSummaryData | IRecoverableAmountsYtd
    | IApprenticeLevy | IBankAccount
    // NVR interfaces
    | INinoVerificationRequest | INinoVerificationRequestData | INinoVerificationRequestEmployeeEntry
    // the library's own implementation classes
    | SubmissionHeader | RtiSubmissionResponseOptions | RtiCredentials | FinalSubmissionData
    | FullPaymentSubmissionData | EmployeeDetails | EmploymentData | FpsEmploymentYtdData
    | FpsEmploymentNiData | FpsEmploymentPaymentData | NewStarterInfo | FullPaymentSubmissionEmployeeEntry
    | EmployerPaymentSummaryData | RecoverableAmountsYtd | ApprenticeLevy | BankAccount
    | NinoVerificationRequestData | NinoVerificationRequestEmployeeEntry
    // any other type
    | ClientType(name: string)

  /** One registered mapping: (interface type, implementation type). */
  type TypeMapping = (TypeToken, TypeToken)

  /** `Type.IsAssignableFrom`, read as isAssignableFrom(interfaceType, implementationType);
      the CLR's type system is not modelled, so every operation takes it as a given relation. */
  type Assignability = (TypeToken, TypeToken) -> bool

  const NotAssignableMessage := "Implementation type is not assignable to interface type"
  const NotSupportedMessage :=
    "Interface to concrete type resolution is not supported by System.Text.Json in .Net 6.0 and below"

  // ---------------------------------------------------------------------------
  // The part of System.Text.Json the provider configures
  // ---------------------------------------------------------------------------

  datatype NamingPolicy = CamelCase
  datatype JsonIgnoreCondition = Never | WhenWritingNull | WhenWritingDefault | Always
  datatype JsonConverter = JsonStringEnumConverter(namingPolicy: Nullable<NamingPolicy>)

  /** How the serialiser creates an instance of a type while deserialising: its own default
      construction, or `Activator.CreateInstance(implementationType, nonPublic: true)`. */
  datatype ObjectFactory = DefaultConstruction | CreateInstance(implementationType: TypeToken)

  /** The contract the resolver produces for one type. */
  datatype JsonTypeInfo = JsonTypeInfo(typ: TypeToken, createObject: ObjectFactory)

  /** The closure `GetOptions` builds for one mapping: when the type being described is
      `matchType`, overwrite its `CreateObject` so that it builds `implementationType`. */
  datatype Modifier = OverrideCreateObject(matchType: TypeToken, implementationType: TypeToken)

  /** A `DefaultJsonTypeInfoResolver` and its `Modifiers` list. */
  datatype TypeInfoResolver = DefaultJsonTypeInfoResolver(modifiers: seq<Modifier>)

  datatype JsonSerializerOptions = JsonSerializerOptions(
    propertyNamingPolicy: Nullable<NamingPolicy>,
    writeIndented: bool,
    defaultIgnoreCondition: JsonIgnoreCondition,
    converters: seq<JsonConverter>,
    typeInfoResolver: Nullable<TypeInfoResolver>)

  /** `new JsonSerializerOptions()`: the serialiser's own defaults. */
  function FreshOptions(): (o: JsonSerializerOptions)
    ensures o.propertyNamingPolicy == Null && !o.writeIndented
    ensures o.defaultIgnoreCondition == Never && o.converters == [] && o.typeInfoResolver == Null
  {
    JsonSerializerOptions(Null, false, Never, [], Null)
  }

  /** `_defaultSerialisationOptions`: the base used when a caller supplies no options. */
  function DefaultSerialisationOptions(): (o: JsonSerializerOptions)
    ensures o.propertyNamingPolicy == NonNull(CamelCase) && o.writeIndented
    ensures o.defaultIgnoreCondition == WhenWritingNull
    ensures o.converters == [JsonStringEnumConverter(NonNull(CamelCase))]
    ensures o.typeInfoResolver == Null
  {
    JsonSerializerOptions(NonNull(CamelCase), true, WhenWritingNull,
                          [JsonStringEnumConverter(NonNull(CamelCase))], Null)
  }

  /** Two options agree on every setting except the type info resolver. */
  predicate SameSettings(a: JsonSerializerOptions, b: JsonSerializerOptions) {
    && a.propertyNamingPolicy == b.propertyNamingPolicy
    && a.writeIndented == b.writeIndented
    && a.defaultIgnoreCondition == b.defaultIgnoreCondition
    && a.converters == b.converters
  }

  /** Runs one modifier on a type info, as the resolver does. */
  function ApplyModifier(m: Modifier, info: JsonTypeInfo): JsonTypeInfo {
    if info.typ == m.matchType then info.(createObject := CreateInstance(m.implementationType)) else info
  }

  /** `k` is the position of the last modifier in `mods` that matches `t`. */
  predicate IsLastMatch(mods: seq<Modifier>, t: TypeToken, k: int) {
    && 0 <= k < |mods|
    && mods[k].matchType == t
    && forall j :: k < j < |mods| ==> mods[j].matchType != t
  }

  /** Runs the modifiers in list order, as `DefaultJsonTypeInfoResolver` does. Each one
      that matches overwrites `CreateObject`, so the last match decides the factory. */
  function ApplyModifiers(mods: seq<Modifier>, info: JsonTypeInfo): (r: JsonTypeInfo)
    ensures r.typ == info.typ
    ensures (forall j :: 0 <= j < |mods| ==> mods[j].matchType != info.typ) ==> r == info
    ensures forall k :: IsLastMatch(mods, info.typ, k) ==>
              r.createObject == CreateInstance(mods[k].implementationType)
  {
    if mods == [] then info
    else
      var r := ApplyModifiers(mods[1..], ApplyModifier(mods[0], info));
      assert forall k :: IsLastMatch(mods, info.typ, k) && k > 0 ==> IsLastMatch(mods[1..], info.typ, k - 1);
      r
  }

  /** The factory the resolver gives type `t` during deserialisation: default construction
      when no modifier matches `t`, otherwise the implementation of the last one that does. */
  function FactoryFor(resolver: TypeInfoResolver, t: TypeToken): (r: ObjectFactory)
    ensures (forall j :: 0 <= j < |resolver.modifiers| ==> resolver.modifiers[j].matchType != t) ==>
              r == DefaultConstruction
    ensures forall k :: IsLastMatch(resolver.modifiers, t, k) ==>
              r == CreateInstance(resolver.modifiers[k].implementationType)
  {
    ApplyModifiers(resolver.modifiers, JsonTypeInfo(t, DefaultConstruction)).createObject
  }

  // ---------------------------------------------------------------------------
  // Reference definition: the last registration of an interface wins
  // ---------------------------------------------------------------------------

  /** The implementation of the last mapping registered for `t`, or null when there is none. */
  function LastImplementation(mappings: seq<TypeMapping>, t: TypeToken): (r: Nullable<TypeToken>)
    ensures r.Null? <==> forall j :: 0 <= j < |mappings| ==> mappings[j].0 != t
    ensures r.NonNull? ==> exists k :: 0 <= k < |mappings| && mappings[k] == (t, r.value)
  {
    if mappings == [] then Null
    else if mappings[|mappings| - 1].0 == t then NonNull(mappings[|mappings| - 1].1)
    else LastImplementation(mappings[..|mappings| - 1], t)
  }

  /** The factory a type should get when `mappings` are registered. */
  function ExpectedFactory(mappings: seq<TypeMapping>, t: TypeToken): ObjectFactory {
    match LastImplementation(mappings, t)
    case NonNull(c) => CreateInstance(c)
    case Null => DefaultConstruction
  }

  /** The modifiers `GetOptions` builds for `mappings`, one per mapping, in order. */
  predicate ModifiersMirror(mods: seq<Modifier>, mappings: seq<TypeMapping>) {
    && |mods| == |mappings|
    && forall k :: 0 <= k < |mods| ==> mods[k] == OverrideCreateObject(mappings[k].0, mappings[k].1)
  }

  /** `k` is the position of the last mapping in `mappings` registered for `t`. */
  predicate IsLastMapping(mappings: seq<TypeMapping>, t: TypeToken, k: int) {
    && 0 <= k < |mappings|
    && mappings[k].0 == t
    && forall j :: k < j < |mappings| ==> mappings[j].0 != t
  }

  /** The reference definition picks the last mapping registered for the type. */
  lemma {:induction false} LastImplementationIsLastMapping(mappings: seq<TypeMapping>, t: TypeToken, k: int)
    requires IsLastMapping(mappings, t, k)
    ensures LastImplementation(mappings, t) == NonNull(mappings[k].1)
  {
    var n := |mappings| - 1;
    if k < n {
      assert IsLastMapping(mappings[..n], t, k);
      LastImplementationIsLastMapping(mappings[..n], t, k);
    }
  }

  /** A type registered at least once has a last registration. */
  lemma {:induction false} LastMappingExists(mappings: seq<TypeMapping>, t: TypeToken) returns (k: int)
    requires exists j :: 0 <= j < |mappings| && mappings[j].0 == t
    ensures IsLastMapping(mappings, t, k)
  {
    var n := |mappings| - 1;
    if mappings[n].0 == t {
      k := n;
    } else {
      var j :| 0 <= j < |mappings| && mappings[j].0 == t;
      assert j < n && mappings[..n][j].0 == t;
      k := LastMappingExists(mappings[..n], t);
      assert IsLastMapping(mappings[..n], t, k);
    }
  }

  /** The resolver built from mirrored modifiers gives every type the factory of its last
      registered mapping, and default construction to types that were never registered. */
  lemma ResolverFollowsLastMapping(mods: seq<Modifier>, mappings: seq<TypeMapping>, t: TypeToken)
    requires ModifiersMirror(mods, mappings)
    ensures FactoryFor(DefaultJsonTypeInfoResolver(mods), t) == ExpectedFactory(mappings, t)
  {
    if exists j :: 0 <= j < |mappings| && mappings[j].0 == t {
      var k := LastMappingExists(mappings, t);
      LastImplementationIsLastMapping(mappings, t, k);
      assert IsLastMatch(mods, t, k);
    } else {
      assert forall j :: 0 <= j < |mods| ==> mods[j].matchType != t;
    }
  }

  /** Registering `(i, c)` last makes `c` the implementation for `i` and leaves every other
      type's resolution as it was: a later duplicate registration overrides an earlier one. */
  lemma LaterRegistrationWins(mappings: seq<TypeMapping>, i: TypeToken, c: TypeToken, t: TypeToken)
    ensures LastImplementation(mappings + [(i, c)], i) == NonNull(c)
    ensures t != i ==> LastImplementation(mappings + [(i, c)], t) == LastImplementation(mappings, t)
  {
    assert (mappings + [(i, c)])[..|mappings|] == mappings;
  }

  // ---------------------------------------------------------------------------
  // The fixed per-document table of GetRtiDocumentSerialisationOptions
  // ---------------------------------------------------------------------------

  /** `RtiDocumentType`. */
  datatype RtiDocumentType = EmployerPaymentSummary | FullPaymentSubmission | NinoVerificationRequest

  /** The four mappings registered for every document kind, in registration order. */
  function SharedMappings(): seq<TypeMapping> {
    [ (ISubmissionHeader, SubmissionHeader),
      (IRtiSubmissionResponseOptions, RtiSubmissionResponseOptions),
      (IRtiCredentials, RtiCredentials),
      (IFinalSubmissionData, FinalSubmissionData) ]
  }

  /** The top-level document interface that each kind maps to the caller's target type. */
  function TopLevelInterface(kind: RtiDocumentType): TypeToken {
    match kind
    case FullPaymentSubmission => IFullPaymentSubmission
    case EmployerPaymentSummary => IEmployerPaymentSummary
    case NinoVerificationRequest => INinoVerificationRequest
  }

  /** The kind-specific mappings to the library's own classes, after the top-level one. */
  function KindLibraryMappings(kind: RtiDocumentType): seq<TypeMapping> {
    match kind
    case FullPaymentSubmission =>
      [ (IFullPaymentSubmissionData, FullPaymentSubmissionData),
        (IEmployeeDetails, EmployeeDetails),
        (IEmploymentData, EmploymentData),
        (IFpsEmploymentYtdData, FpsEmploymentYtdData),
        (IFpsEmploymentNationalInsuranceData, FpsEmploymentNiData),
        (IFpsEmploymentPaymentData, FpsEmploymentPaymentData),
        (IEmploymentNewStarterInfo, NewStarterInfo),
        (IFullPaymentSubmissionEmployeeEntry, FullPaymentSubmissionEmployeeEntry) ]
    case EmployerPaymentSummary =>
      [ (IEmployerPaymentSummaryData, EmployerPaymentSummaryData),
        (IRecoverableAmountsYtd, RecoverableAmountsYtd),
        (IApprenticeLevy, ApprenticeLevy),
        (IBankAccount, BankAccount) ]
    case NinoVerificationRequest =>
      [ (INinoVerificationRequestData, NinoVerificationRequestData),
        (INinoVerificationRequestEmployeeEntry, NinoVerificationRequestEmployeeEntry) ]
  }

  /** Every mapping `GetRtiDocumentSerialisationOptions` registers for `kind`, in order. */
  function DocumentMappings(kind: RtiDocumentType, targetType: TypeToken): (r: seq<TypeMapping>)
    ensures |r| == (match kind
                    case FullPaymentSubmission => 13
                    case EmployerPaymentSummary => 9
                    case NinoVerificationRequest => 7)
    ensures r[..4] == SharedMappings()
    ensures r[4] == (TopLevelInterface(kind), targetType)
    ensures r[5..] == KindLibraryMappings(kind)
  {
    SharedMappings() + [(TopLevelInterface(kind), targetType)] + KindLibraryMappings(kind)
  }

  /** The mappings between the library's own types for `kind` (every one but the top-level). */
  function LibraryMappings(kind: RtiDocumentType): seq<TypeMapping> {
    SharedMappings() + KindLibraryMappings(kind)
  }

  /** The library's own classes implement the interfaces the table maps them to. */
  ghost predicate LibraryTypesAssignable(isAssignableFrom: Assignability) {
    forall kind: RtiDocumentType, k: int :: 0 <= k < |LibraryMappings(kind)| ==>
      isAssignableFrom(LibraryMappings(kind)[k].0, LibraryMappings(kind)[k].1)
  }

  /** Every mapping of the table is accepted by `isAssignableFrom`. */
  predicate AllAssignable(mappings: seq<TypeMapping>, isAssignableFrom: Assignability) {
    forall k :: 0 <= k < |mappings| ==> isAssignableFrom(mappings[k].0, mappings[k].1)
  }

  /** When the library's classes implement their interfaces, the table is accepted exactly
      when the caller's target type implements the kind's top-level interface. */
  lemma TableAcceptedIffTargetImplementsTopLevel(
    kind: RtiDocumentType, targetType: TypeToken, isAssignableFrom: Assignability)
    requires LibraryTypesAssignable(isAssignableFrom)
    ensures AllAssignable(DocumentMappings(kind, targetType), isAssignableFrom)
            <==> isAssignableFrom(TopLevelInterface(kind), targetType)
  {
    var r := DocumentMappings(kind, targetType);
    var lib := LibraryMappings(kind);
    if isAssignableFrom(TopLevelInterface(kind), targetType) {
      forall k | 0 <= k < |r| ensures isAssignableFrom(r[k].0, r[k].1) {
        if k < 4 {
          assert r[k] == lib[k];
        } else if k > 4 {
          assert r[k] == lib[k - 1];
        }
      }
    }
  }

  // ---------------------------------------------------------------------------
  // The provider
  // ---------------------------------------------------------------------------

  class SerializationOptionsProvider {
    /** `_typeMappings`: every mapping added so far, in the order added. */
    var typeMappings: seq<TypeMapping>

    constructor ()
      ensures typeMappings == []
    {
      typeMappings := [];
    }

    /** Adds a mapping, failing fast when the implementation does not implement the
        interface; returns the provider itself so that calls can be chained. */
    method AddTypeMapping(interfaceType: TypeToken, implementationType: TypeToken,
                          isAssignableFrom: Assignability)
      returns (r: Result<SerializationOptionsProvider>)
      modifies this
      ensures !isAssignableFrom(interfaceType, implementationType) ==>
                r == Err(InvalidOperationException(NotAssignableMessage)) && typeMappings == old(typeMappings)
      ensures isAssignableFrom(interfaceType, implementationType) ==>
                r == Ok(this) && typeMappings == old(typeMappings) + [(interfaceType, implementationType)]
    {
      if !isAssignableFrom(interfaceType, implementationType) {
        return Err(InvalidOperationException(NotAssignableMessage));
      }
      typeMappings := typeMappings + [(interfaceType, implementationType)];
      return Ok(this);
    }

    /** Builds new serialiser options whose resolver makes each registered interface be
        constructed as its mapped implementation. Copies `initialOptions` when given. */
    method GetOptions(targetsNet7: bool, initialOptions: Nullable<JsonSerializerOptions> := Null)
      returns (r: Result<JsonSerializerOptions>)
      ensures !targetsNet7 ==> r == Err(NotSupportedException(NotSupportedMessage))
      ensures targetsNet7 ==> r.Ok? && r.value.typeInfoResolver.NonNull?
      ensures r.Ok? ==> SameSettings(r.value, initialOptions.ValueOr(FreshOptions()))
      ensures r.Ok? ==> ModifiersMirror(r.value.typeInfoResolver.value.modifiers, typeMappings)
      ensures r.Ok? ==> forall t :: FactoryFor(r.value.typeInfoResolver.value, t) == ExpectedFactory(typeMappings, t)
    {
      if !targetsNet7 {
        return Err(NotSupportedException(NotSupportedMessage));
      }
      // One modifier per registered mapping, in registration order.
      var modifiers: seq<Modifier> := [];
      var i := 0;
      while i < |typeMappings|
        invariant 0 <= i <= |typeMappings|
        invariant ModifiersMirror(modifiers, typeMappings[..i])
      {
        modifiers := modifiers + [OverrideCreateObject(typeMappings[i].0, typeMappings[i].1)];
        i := i + 1;
      }
      // The resolver receives the modifiers in the same order.
      var resolverModifiers: seq<Modifier> := [];
      var j := 0;
      while j < |modifiers|
        invariant 0 <= j <= |modifiers|
        invariant resolverModifiers == modifiers[..j]
      {
        resolverModifiers := resolverModifiers + [modifiers[j]];
        j := j + 1;
      }
      var typeInfoResolver := DefaultJsonTypeInfoResolver(resolverModifiers);
      var options := match initialOptions
        case NonNull(o) => o.(typeInfoResolver := NonNull(typeInfoResolver))
        case Null => FreshOptions().(typeInfoResolver := NonNull(typeInfoResolver));
      forall t ensures FactoryFor(typeInfoResolver, t) == ExpectedFactory(typeMappings, t) {
        ResolverFollowsLastMapping(resolverModifiers, typeMappings, t);
      }
      return Ok(options);
    }

    /** Serialiser options for an RTI document of `documentType` whose top-level class is
        `targetType`: registers the kind's fixed table, then builds the options on top of
        `options`, or of the library's defaults when `options` is null. */
    static method GetRtiDocumentSerialisationOptions(
      documentType: RtiDocumentType, targetType: TypeToken,
      isAssignableFrom: Assignability, targetsNet7: bool,
      options: Nullable<JsonSerializerOptions> := Null)
      returns (r: Result<JsonSerializerOptions>)
      ensures !AllAssignable(DocumentMappings(documentType, targetType), isAssignableFrom) ==>
                r == Err(InvalidOperationException(NotAssignableMessage))
      ensures AllAssignable(DocumentMappings(documentType, targetType), isAssignableFrom) && !targetsNet7 ==>
                r == Err(NotSupportedException(NotSupportedMessage))
      ensures r.Ok? <==> AllAssignable(DocumentMappings(documentType, targetType), isAssignableFrom) && targetsNet7
      ensures r.Ok? ==> SameSettings(r.value, options.ValueOr(DefaultSerialisationOptions()))
      ensures r.Ok? ==> r.value.typeInfoResolver.NonNull?
      ensures r.Ok? ==> ModifiersMirror(r.value.typeInfoResolver.value.modifiers, DocumentMappings(documentType, targetType))
      ensures r.Ok? ==> forall t :: FactoryFor(r.value.typeInfoResolver.value, t)
                                    == ExpectedFactory(DocumentMappings(documentType, targetType), t)
    {
      var baseOptions := options.ValueOr(DefaultSerialisationOptions());
      var provider := new SerializationOptionsProvider();
      var table := DocumentMappings(documentType, targetType);
      var i := 0;
      while i < |table|
        invariant 0 <= i <= |table|
        invariant provider.typeMappings == table[..i]
        invariant AllAssignable(table[..i], isAssignableFrom)
      {
        var added := provider.AddTypeMapping(table[i].0, table[i].1, isAssignableFrom);
        if added.Err? {
          return Err(added.error);
        }
        i := i + 1;
      }
      assert table[..i] == table;
      r := provider.GetOptions(targetsNet7, NonNull(baseOptions));
    }
  }

  /** Registering two implementations for one interface keeps both entries (there is no
      de-duplication), and the options then construct the interface as the later one. */
  method RegisterSameInterfaceTwice(interfaceType: TypeToken, first: TypeToken, second: TypeToken,
                                    isAssignableFrom: Assignability)
    returns (entries: nat, factory: ObjectFactory)
    requires isAssignableFrom(interfaceType, first) && isAssignableFrom(interfaceType, second)
    ensures entries == 2
    ensures factory == CreateInstance(second)
  {
    var provider := new SerializationOptionsProvider();
    var _ := provider.AddTypeMapping(interfaceType, first, isAssignableFrom);
    var _ := provider.AddTypeMapping(interfaceType, second, isAssignableFrom);
    entries := |provider.typeMappings|;
    var options := provider.GetOptions(true);
    factory := FactoryFor(options.value.typeInfoResolver.value, interfaceType);
    LaterRegistrationWins([(interfaceType, first)], interfaceType, second, interfaceType);
  }
}
