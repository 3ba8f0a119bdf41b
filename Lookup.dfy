/** The read-only lookups the registry and its builder share: which data
    fetcher a field gets, whether a field has an explicit one, and which type
    resolver an interface or union gets. They read the contents of the three
    maps and change nothing. */
module Lookup {
  import opened Wrappers
  import opened Schema
  import opened JavaMaps

  /** Contents of the coordinate-keyed data-fetcher map. */
  type FetcherMap = map<FieldCoordinates, Option<DataFetcherFactory>>
  /** Contents of the system data-fetcher map, keyed by bare field name. */
  type SystemFetcherMap = map<string, Option<DataFetcherFactory>>
  /** Contents of the type-resolver map, keyed by abstract type name. */
  type ResolverMap = map<string, Option<TypeResolver>>

  /** Where a field's data-fetcher factory came from. */
  datatype FetcherChoice =
    | SystemEntry(factory: DataFetcherFactory)
    | TableEntry(factory: DataFetcherFactory)
    | PropertyDefault(fieldName: string)
  {
    function Factory(): DataFetcherFactory {
      if PropertyDefault? then DefaultDataFetcherFactory(fieldName) else factory
    }
  }

  /** The three layers: the system map by field name, then the coordinate
      map, then a property accessor for the field name. */
  function ChooseFactory(coordinates: FieldCoordinates, dataFetcherMap: FetcherMap,
                         systemDataFetcherMap: SystemFetcherMap): (r: FetcherChoice)
    ensures r.SystemEntry? <==> Get(systemDataFetcherMap, coordinates.fieldName).Some?
    ensures r.TableEntry? <==>
      Get(systemDataFetcherMap, coordinates.fieldName).None? && Get(dataFetcherMap, coordinates).Some?
    ensures r.SystemEntry? ==> Some(r.factory) == Get(systemDataFetcherMap, coordinates.fieldName)
    ensures r.TableEntry? ==> Some(r.factory) == Get(dataFetcherMap, coordinates)
    ensures r.PropertyDefault? ==> r.fieldName == coordinates.fieldName
  {
    match Get(systemDataFetcherMap, coordinates.fieldName)
    case Some(f) => SystemEntry(f)
    case None =>
      match Get(dataFetcherMap, coordinates)
      case Some(f) => TableEntry(f)
      case None => PropertyDefault(coordinates.fieldName)
  }

  /** `getDataFetcherImpl`: fails only on a null argument; otherwise every
      field gets a fetcher, from the first layer that has one. */
  function GetDataFetcherImpl(parentType: Option<FieldsContainer>, fieldDefinition: Option<FieldDefinition>,
                              dataFetcherMap: FetcherMap, systemDataFetcherMap: SystemFetcherMap)
    : (r: Result<FactoryGet, Error>)
    ensures r.Failure? <==> parentType.None? || fieldDefinition.None?
    ensures r.Failure? ==> r.error == NullArgument
    ensures r.Success? ==> r.value.environment == FactoryEnvironment(fieldDefinition.value)
    ensures r.Success? ==>
      var name := fieldDefinition.value.name;
      var c := CoordinatesOf(parentType.value, fieldDefinition.value);
      && (Get(systemDataFetcherMap, name).Some? ==>
            Some(r.value.factory) == Get(systemDataFetcherMap, name))
      && (Get(systemDataFetcherMap, name).None? && Get(dataFetcherMap, c).Some? ==>
            Some(r.value.factory) == Get(dataFetcherMap, c))
      && (Get(systemDataFetcherMap, name).None? && Get(dataFetcherMap, c).None? ==>
            r.value.factory == DefaultDataFetcherFactory(name))
  {
    if parentType.None? || fieldDefinition.None? then Failure(NullArgument)
    else
      var choice := ChooseFactory(CoordinatesOf(parentType.value, fieldDefinition.value),
                                  dataFetcherMap, systemDataFetcherMap);
      Success(FactoryGet(choice.Factory(), FactoryEnvironment(fieldDefinition.value)))
  }

  /** `hasDataFetcherImpl`: an explicit binding in either map; the property
      default does not count. */
  function HasDataFetcherImpl(coordinates: Option<FieldCoordinates>, dataFetcherMap: FetcherMap,
                              systemDataFetcherMap: SystemFetcherMap): (r: Result<bool, Error>)
    ensures r.Failure? <==> coordinates.None?
    ensures r.Failure? ==> r.error == NullArgument
    ensures r.Success? ==>
      (r.value <==> Get(systemDataFetcherMap, coordinates.value.fieldName).Some?
                    || Get(dataFetcherMap, coordinates.value).Some?)
  {
    if coordinates.None? then Failure(NullArgument)
    else
      var f := Get(systemDataFetcherMap, coordinates.value.fieldName);
      var f' := if f.None? then Get(dataFetcherMap, coordinates.value) else f;
      Success(f'.Some?)
  }

  /** `getTypeResolverForInterface` and `getTypeResolverForUnion`: the map
      entry for the type's name, else the resolver carried on the type, else
      an assertion failure naming the type. */
  function GetTypeResolverImpl(abstractType: Option<AbstractType>, typeResolverMap: ResolverMap)
    : (r: Result<TypeResolver, Error>)
    ensures abstractType.None? ==> r == Failure(NullArgument)
    ensures abstractType.Some? ==>
      var t := abstractType.value;
      && (Get(typeResolverMap, t.name).Some? ==> r == Success(Get(typeResolverMap, t.name).value))
      && (Get(typeResolverMap, t.name).None? && t.typeResolver.Some? ==> r == Success(t.typeResolver.value))
      && (Get(typeResolverMap, t.name).None? && t.typeResolver.None? ==>
            r == Failure(AssertFailed(MissingTypeResolverMessage(t))))
  {
    if abstractType.None? then Failure(NullArgument)
    else
      var t := abstractType.value;
      var resolver := Get(typeResolverMap, t.name);
      var resolver' := if resolver.None? then t.typeResolver else resolver;
      if resolver'.None? then Failure(AssertFailed(MissingTypeResolverMessage(t)))
      else Success(resolver'.value)
  }

  /** `hasDataFetcher` and `getDataFetcher` agree: a field has an explicit
      fetcher exactly when its lookup does not fall back on the default. */
  lemma HasDataFetcherIffNotDefaulted(parentType: FieldsContainer, fieldDefinition: FieldDefinition,
                                      dataFetcherMap: FetcherMap, systemDataFetcherMap: SystemFetcherMap)
    ensures var c := CoordinatesOf(parentType, fieldDefinition);
      HasDataFetcherImpl(Some(c), dataFetcherMap, systemDataFetcherMap) == Success(true)
      <==> !ChooseFactory(c, dataFetcherMap, systemDataFetcherMap).PropertyDefault?
    ensures var c := CoordinatesOf(parentType, fieldDefinition);
      HasDataFetcherImpl(Some(c), dataFetcherMap, systemDataFetcherMap) == Success(false) ==>
      GetDataFetcherImpl(Some(parentType), Some(fieldDefinition), dataFetcherMap, systemDataFetcherMap)
        == Success(FactoryGet(DefaultDataFetcherFactory(fieldDefinition.name), FactoryEnvironment(fieldDefinition)))
  {
  }

  /** Type-resolver lookup fails for a non-null type exactly when neither the
      map nor the type itself has a resolver. */
  lemma TypeResolverFailsIffUnbound(abstractType: AbstractType, typeResolverMap: ResolverMap)
    ensures GetTypeResolverImpl(Some(abstractType), typeResolverMap).Failure?
      <==> Get(typeResolverMap, abstractType.name).None? && abstractType.typeResolver.None?
  {
  }

  /** A system entry is found for its field name under every parent type. */
  lemma SystemEntryIgnoresParentType(parentType: FieldsContainer, otherParent: FieldsContainer,
                                     fieldDefinition: FieldDefinition,
                                     dataFetcherMap: FetcherMap, systemDataFetcherMap: SystemFetcherMap)
    requires Get(systemDataFetcherMap, fieldDefinition.name).Some?
    ensures GetDataFetcherImpl(Some(parentType), Some(fieldDefinition), dataFetcherMap, systemDataFetcherMap)
         == GetDataFetcherImpl(Some(otherParent), Some(fieldDefinition), dataFetcherMap, systemDataFetcherMap)
  {
  }
}
