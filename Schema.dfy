/** The values the code registry binds and is asked about: field coordinates,
    the parts of GraphQL types it reads, and the opaque capabilities it stores
    (data fetchers, their factories, type resolvers and the field visibility). */
module Schema {
  import opened Wrappers

  /** A field definition; the registry only reads its name. */
  datatype FieldDefinition = FieldDefinition(name: string)

  /** An object or interface type that owns fields; the registry only reads its name. */
  datatype FieldsContainer = FieldsContainer(name: string)

  /** A field identified by the name of its parent type and its own name. */
  datatype FieldCoordinates = FieldCoordinates(parentTypeName: string, fieldName: string)

  /** The coordinates of `fieldDefinition` inside `parentType`. */
  function CoordinatesOf(parentType: FieldsContainer, fieldDefinition: FieldDefinition): FieldCoordinates
  {
    FieldCoordinates(parentType.name, fieldDefinition.name)
  }

  /** A data fetcher: user code, identified only by a tag, or the stock
      accessor that reads the property of the same name off the source object. */
  datatype DataFetcher = UserDataFetcher(id: nat) | PropertyDataFetcher(propertyName: string)

  /** A data-fetcher factory: the wrapper that always hands back one fetcher
      (which may be null), or a factory supplied by user code. */
  datatype DataFetcherFactory =
    | UseDataFetcher(fetcher: Option<DataFetcher>)
    | UserDataFetcherFactory(id: nat)

  /** The factory every field falls back on: a property accessor for the field's name. */
  function DefaultDataFetcherFactory(fieldName: string): DataFetcherFactory
  {
    UseDataFetcher(Some(PropertyDataFetcher(fieldName)))
  }

  /** The environment a factory is called with; it carries the field definition. */
  datatype FactoryEnvironment = FactoryEnvironment(fieldDefinition: FieldDefinition)

  /** The data fetcher that `factory.get(environment)` returns. Factories are
      foreign code, so the model keeps the call itself as the value. */
  datatype FactoryGet = FactoryGet(factory: DataFetcherFactory, environment: FactoryEnvironment)

  /** A type resolver, opaque to the registry. */
  datatype TypeResolver = TypeResolver(id: nat)

  /** The field-visibility policy, opaque to the registry. */
  datatype FieldVisibility = DefaultFieldVisibility | UserFieldVisibility(id: nat)

  datatype AbstractKind = Interface | Union

  /** An interface or union type: its name and the type resolver it may carry inline. */
  datatype AbstractType = AbstractType(kind: AbstractKind, name: string, typeResolver: Option<TypeResolver>)

  /** What the registry throws. */
  datatype Error =
    | NullArgument                // graphql.Assert.assertNotNull on a null argument
    | NullPointer                 // a method called on a null reference
    | InvalidName(name: string)   // graphql.Assert.assertValidName on a malformed name
    | AssertFailed(message: string)

  const SYSTEM_FIELDS_ONLY: string := "Only __ system fields can be used here"

  /** The message thrown when an abstract type has no type resolver at all. */
  function MissingTypeResolverMessage(abstractType: AbstractType): (msg: string)
    ensures |msg| > |abstractType.name| && msg[|msg| - |abstractType.name|..] == abstractType.name
  {
    (if abstractType.kind == Interface then "There must be a type resolver for interface "
     else "There must be a type resolver for union ") + abstractType.name
  }

  /** Names reserved for introspection start with two underscores. */
  predicate IsSystemFieldName(name: string) {
    |name| >= 2 && name[0] == '_' && name[1] == '_'
  }

  predicate IsNameStart(c: char) {
    c == '_' || 'A' <= c <= 'Z' || 'a' <= c <= 'z'
  }

  predicate IsNameContinue(c: char) {
    IsNameStart(c) || '0' <= c <= '9'
  }

  /** A GraphQL Name: one of `_`, `A-Z`, `a-z` followed by any number of those or digits. */
  predicate IsValidName(name: string) {
    |name| > 0 && IsNameStart(name[0]) && forall i :: 1 <= i < |name| ==> IsNameContinue(name[i])
  }
}
