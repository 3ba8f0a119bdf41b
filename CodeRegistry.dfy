/** `GraphQLCodeRegistry` and its `Builder`. The registry holds references to
    three maps and a field visibility; the builder owns three maps it updates
    in place and a visibility it reassigns. `Build` hands the builder's own map
    objects to the new registry, so the two share them afterwards. */
module CodeRegistry {
  import opened Wrappers
  import opened Schema
  import opened JavaMaps
  import opened Lookup
  import opened BuilderSpec

  class GraphQLCodeRegistry {
    const dataFetcherMap: HashMap<FieldCoordinates, DataFetcherFactory>
    const systemDataFetcherMap: HashMap<string, DataFetcherFactory>
    const typeResolverMap: HashMap<string, TypeResolver>
    const fieldVisibility: FieldVisibility

    /** Keeps the given map objects themselves; nothing is copied. */
    constructor (dataFetcherMap: HashMap<FieldCoordinates, DataFetcherFactory>,
                 systemDataFetcherMap: HashMap<string, DataFetcherFactory>,
                 typeResolverMap: HashMap<string, TypeResolver>,
                 fieldVisibility: FieldVisibility)
      ensures this.dataFetcherMap == dataFetcherMap
      ensures this.systemDataFetcherMap == systemDataFetcherMap
      ensures this.typeResolverMap == typeResolverMap
      ensures this.fieldVisibility == fieldVisibility
    {
      this.dataFetcherMap := dataFetcherMap;
      this.systemDataFetcherMap := systemDataFetcherMap;
      this.typeResolverMap := typeResolverMap;
      this.fieldVisibility := fieldVisibility;
    }

    /** The registry's current contents, as a value. */
    ghost function Snapshot(): State
      reads dataFetcherMap, systemDataFetcherMap, typeResolverMap
    {
      State(dataFetcherMap.entries, systemDataFetcherMap.entries, typeResolverMap.entries, fieldVisibility)
    }

    /** The visibility fixed when the registry was built. */
    function GetFieldVisibility(): (v: FieldVisibility)
      ensures v == fieldVisibility
    {
      fieldVisibility
    }

    /** `getDataFetcher`: the shared lookup over the maps as they are now. */
    function GetDataFetcher(parentType: Option<FieldsContainer>, fieldDefinition: Option<FieldDefinition>)
      : (r: Result<FactoryGet, Error>)
      reads dataFetcherMap, systemDataFetcherMap
      ensures r == GetDataFetcherImpl(parentType, fieldDefinition, dataFetcherMap.entries, systemDataFetcherMap.entries)
    {
      GetDataFetcherImpl(parentType, fieldDefinition, dataFetcherMap.entries, systemDataFetcherMap.entries)
    }

    /** `getTypeResolver` for an interface or a union type. */
    function GetTypeResolver(abstractType: Option<AbstractType>): (r: Result<TypeResolver, Error>)
      reads typeResolverMap
      ensures r == GetTypeResolverImpl(abstractType, typeResolverMap.entries)
    {
      GetTypeResolverImpl(abstractType, typeResolverMap.entries)
    }

    /** `transform`: seed a fresh builder from this registry, run the
        mutator's calls on it (the first that throws ends `transform` with
        that error) and build. The new registry's maps are new objects, and
        this registry's maps are left as they were. */
    method Transform(ops: seq<BuilderOp>) returns (r: Result<GraphQLCodeRegistry, Error>)
      ensures r.Failure? <==> Transformed(Snapshot(), ops).Failure?
      ensures r.Failure? ==> r.error == Transformed(Snapshot(), ops).error
      ensures r.Success? ==> r.value.Snapshot() == Transformed(Snapshot(), ops).value
      ensures r.Success? ==>
        fresh(r.value) && fresh(r.value.dataFetcherMap) && fresh(r.value.systemDataFetcherMap)
        && fresh(r.value.typeResolverMap)
      ensures unchanged(dataFetcherMap, systemDataFetcherMap, typeResolverMap)
    {
      var builder := new Builder.Seeded(this);
      var i := 0;
      while i < |ops|
        invariant 0 <= i <= |ops|
        invariant builder.Valid()
        invariant fresh(builder) && fresh(builder.dataFetcherMap) && fresh(builder.systemDataFetcherMap)
                  && fresh(builder.typeResolverMap)
        invariant ApplyAll(Seed(Snapshot()), ops[..i]) == Success(builder.Snapshot())
      {
        var outcome := builder.Apply(ops[i]);
        assert ops[..i + 1][..i] == ops[..i];
        if outcome.Fail? {
          ApplyAllStopsAtFailure(Seed(Snapshot()), ops, i + 1);
          return Failure(outcome.error);
        }
        i := i + 1;
      }
      assert ops[..i] == ops;
      var registry := builder.Build();
      return Success(registry);
    }
  }

  class Builder {
    const dataFetcherMap: HashMap<FieldCoordinates, DataFetcherFactory>
    const systemDataFetcherMap: HashMap<string, DataFetcherFactory>
    const typeResolverMap: HashMap<string, TypeResolver>
    var fieldVisibility: FieldVisibility

    /** The three maps are distinct objects, and the system map holds only
        reserved `__` names. */
    ghost predicate Valid()
      reads this, dataFetcherMap, systemDataFetcherMap, typeResolverMap
    {
      && dataFetcherMap as object != systemDataFetcherMap as object
      && dataFetcherMap as object != typeResolverMap as object
      && systemDataFetcherMap as object != typeResolverMap as object
      && SystemNamesReserved(Snapshot())
    }

    /** The builder's current contents, as a value. */
    ghost function Snapshot(): State
      reads this, dataFetcherMap, systemDataFetcherMap, typeResolverMap
    {
      State(dataFetcherMap.entries, systemDataFetcherMap.entries, typeResolverMap.entries, fieldVisibility)
    }

    /** `newCodeRegistry()`: empty maps and the default visibility. */
    constructor ()
      ensures Valid() && Snapshot() == Empty
      ensures fresh(dataFetcherMap) && fresh(systemDataFetcherMap) && fresh(typeResolverMap)
    {
      dataFetcherMap := new HashMap();
      systemDataFetcherMap := new HashMap();
      typeResolverMap := new HashMap();
      fieldVisibility := DefaultFieldVisibility;
    }

    /** `newCodeRegistry(existing)`: new maps holding copies of the registry's
        data-fetcher and type-resolver bindings and its visibility; the system
        map starts empty. */
    constructor Seeded(registry: GraphQLCodeRegistry)
      ensures Valid() && Snapshot() == Seed(registry.Snapshot())
      ensures fresh(dataFetcherMap) && fresh(systemDataFetcherMap) && fresh(typeResolverMap)
    {
      dataFetcherMap := new HashMap();
      systemDataFetcherMap := new HashMap();
      typeResolverMap := new HashMap();
      fieldVisibility := registry.fieldVisibility;
      new;
      dataFetcherMap.PutAll(registry.dataFetcherMap.entries);
      typeResolverMap.PutAll(registry.typeResolverMap.entries);
    }

    /** `getDataFetcher` on the builder: the same lookup over its own maps. */
    function GetDataFetcher(parentType: Option<FieldsContainer>, fieldDefinition: Option<FieldDefinition>)
      : (r: Result<FactoryGet, Error>)
      reads dataFetcherMap, systemDataFetcherMap
      ensures r == GetDataFetcherImpl(parentType, fieldDefinition, dataFetcherMap.entries, systemDataFetcherMap.entries)
    {
      GetDataFetcherImpl(parentType, fieldDefinition, dataFetcherMap.entries, systemDataFetcherMap.entries)
    }

    /** `hasDataFetcher`: an explicit binding in the system or coordinate map. */
    function HasDataFetcher(coordinates: Option<FieldCoordinates>): (r: Result<bool, Error>)
      reads dataFetcherMap, systemDataFetcherMap
      ensures r == HasDataFetcherImpl(coordinates, dataFetcherMap.entries, systemDataFetcherMap.entries)
    {
      HasDataFetcherImpl(coordinates, dataFetcherMap.entries, systemDataFetcherMap.entries)
    }

    /** `getTypeResolver` on the builder, for an interface or a union type. */
    function GetTypeResolver(abstractType: Option<AbstractType>): (r: Result<TypeResolver, Error>)
      reads typeResolverMap
      ensures r == GetTypeResolverImpl(abstractType, typeResolverMap.entries)
    {
      GetTypeResolverImpl(abstractType, typeResolverMap.entries)
    }

    /** `hasTypeResolver`: the name is a key of the map, even one bound to null;
        the resolver a type carries inline is not consulted. */
    function HasTypeResolver(typeName: string): (r: bool)
      reads typeResolverMap
      ensures r <==> typeName in typeResolverMap.entries
    {
      typeResolverMap.ContainsKey(typeName)
    }

    /** `dataFetcher(coordinates, DataFetcherFactory)`. */
    method PutDataFetcherFactory(coordinates: Option<FieldCoordinates>, factory: Option<DataFetcherFactory>)
      returns (outcome: Outcome<Error>)
      requires Valid()
      modifies dataFetcherMap
      ensures Valid()
      ensures outcome == if factory.None? || coordinates.None? then Fail(NullArgument) else Pass
      ensures outcome.Fail? ==> Snapshot() == old(Snapshot())
      ensures outcome.Pass? ==>
        Snapshot() == old(Snapshot()).(dataFetchers := old(dataFetcherMap.entries)[coordinates.value := factory])
    {
      if factory.None? || coordinates.None? {
        return Fail(NullArgument);
      }
      dataFetcherMap.Put(coordinates.value, factory);
      return Pass;
    }

    /** `dataFetcher(coordinates, DataFetcher)`: wraps the fetcher in a factory. */
    method PutDataFetcher(coordinates: Option<FieldCoordinates>, dataFetcher: Option<DataFetcher>)
      returns (outcome: Outcome<Error>)
      requires Valid()
      modifies dataFetcherMap
      ensures Valid()
      ensures outcome == if dataFetcher.None? || coordinates.None? then Fail(NullArgument) else Pass
      ensures outcome.Fail? ==> Snapshot() == old(Snapshot())
      ensures outcome.Pass? ==>
        Snapshot() == old(Snapshot()).(dataFetchers :=
          old(dataFetcherMap.entries)[coordinates.value := Some(UseDataFetcher(dataFetcher))])
    {
      if dataFetcher.None? {
        return Fail(NullArgument);
      }
      outcome := PutDataFetcherFactory(coordinates, Some(UseDataFetcher(dataFetcher)));
    }

    /** `dataFetcherIfAbsent`: only the coordinates are checked for null. */
    method PutDataFetcherIfAbsent(coordinates: Option<FieldCoordinates>, dataFetcher: Option<DataFetcher>)
      returns (outcome: Outcome<Error>)
      requires Valid()
      modifies dataFetcherMap
      ensures Valid()
      ensures outcome == if coordinates.None? then Fail(NullArgument) else Pass
      ensures outcome.Fail? || Get(old(dataFetcherMap.entries), coordinates.value).Some? ==>
        Snapshot() == old(Snapshot())
      ensures outcome.Pass? && Get(old(dataFetcherMap.entries), coordinates.value).None? ==>
        Snapshot() == old(Snapshot()).(dataFetchers :=
          old(dataFetcherMap.entries)[coordinates.value := Some(UseDataFetcher(dataFetcher))])
    {
      if coordinates.None? {
        return Fail(NullArgument);
      }
      dataFetcherMap.PutIfAbsent(coordinates.value, Some(UseDataFetcher(dataFetcher)));
      return Pass;
    }

    /** `systemDataFetcher`: only `__` field names, keyed by the field name alone. */
    method PutSystemDataFetcher(coordinates: Option<FieldCoordinates>, dataFetcher: Option<DataFetcher>)
      returns (outcome: Outcome<Error>)
      requires Valid()
      modifies systemDataFetcherMap
      ensures Valid()
      ensures outcome ==
        if dataFetcher.None? || coordinates.None? then Fail(NullArgument)
        else if !IsSystemFieldName(coordinates.value.fieldName) then Fail(AssertFailed(SYSTEM_FIELDS_ONLY))
        else Pass
      ensures outcome.Fail? ==> Snapshot() == old(Snapshot())
      ensures outcome.Pass? ==>
        Snapshot() == old(Snapshot()).(systemDataFetchers :=
          old(systemDataFetcherMap.entries)[coordinates.value.fieldName := Some(UseDataFetcher(dataFetcher))])
    {
      if dataFetcher.None? || coordinates.None? {
        return Fail(NullArgument);
      }
      if !IsSystemFieldName(coordinates.value.fieldName) {
        return Fail(AssertFailed(SYSTEM_FIELDS_ONLY));
      }
      systemDataFetcherMap.Put(coordinates.value.fieldName, Some(UseDataFetcher(dataFetcher)));
      return Pass;
    }

    /** `dataFetchers(parentTypeName, map)`: `dataFetcher` for each entry in
        iteration order; a null fetcher throws after the entries before it
        have been bound. */
    method PutDataFetchers(parentTypeName: string, fieldDataFetchers: Option<FieldFetchers>)
      returns (outcome: Outcome<Error>)
      requires Valid()
      modifies dataFetcherMap
      ensures Valid()
      ensures fieldDataFetchers.None? ==> outcome == Fail(NullArgument) && Snapshot() == old(Snapshot())
      ensures fieldDataFetchers.Some? ==>
        var b := BindAll(old(dataFetcherMap.entries), parentTypeName, fieldDataFetchers.value);
        outcome == b.outcome && Snapshot() == old(Snapshot()).(dataFetchers := b.dataFetchers)
    {
      if fieldDataFetchers.None? {
        return Fail(NullArgument);
      }
      var entries := fieldDataFetchers.value;
      var i := 0;
      while i < |entries|
        invariant 0 <= i <= |entries|
        invariant Valid()
        invariant BindAll(old(dataFetcherMap.entries), parentTypeName, entries[..i])
                  == BulkResult(dataFetcherMap.entries, Pass)
        invariant Snapshot() == old(Snapshot()).(dataFetchers := dataFetcherMap.entries)
      {
        var (fieldName, dataFetcher) := entries[i];
        outcome := PutDataFetcher(Some(FieldCoordinates(parentTypeName, fieldName)), dataFetcher);
        assert entries[..i + 1][..i] == entries[..i];
        if outcome.Fail? {
          BindAllStopsAtFailure(old(dataFetcherMap.entries), parentTypeName, entries, i + 1);
          return;
        }
        i := i + 1;
      }
      assert entries[..i] == entries;
      return Pass;
    }

    /** `typeResolver(interfaceType | unionType, resolver)`: keyed by the
        type's own name; a null resolver is stored as null. */
    method PutTypeResolver(abstractType: Option<AbstractType>, resolver: Option<TypeResolver>)
      returns (outcome: Outcome<Error>)
      requires Valid()
      modifies typeResolverMap
      ensures Valid()
      ensures outcome == if abstractType.None? then Fail(NullPointer) else Pass
      ensures outcome.Fail? ==> Snapshot() == old(Snapshot())
      ensures outcome.Pass? ==>
        Snapshot() == old(Snapshot()).(typeResolvers := old(typeResolverMap.entries)[abstractType.value.name := resolver])
    {
      if abstractType.None? {
        return Fail(NullPointer);
      }
      typeResolverMap.Put(abstractType.value.name, resolver);
      return Pass;
    }

    /** `typeResolverIfAbsent(interfaceType | unionType, resolver)`. */
    method PutTypeResolverIfAbsent(abstractType: Option<AbstractType>, resolver: Option<TypeResolver>)
      returns (outcome: Outcome<Error>)
      requires Valid()
      modifies typeResolverMap
      ensures Valid()
      ensures outcome == if abstractType.None? then Fail(NullPointer) else Pass
      ensures outcome.Fail? || Get(old(typeResolverMap.entries), abstractType.value.name).Some? ==>
        Snapshot() == old(Snapshot())
      ensures outcome.Pass? && Get(old(typeResolverMap.entries), abstractType.value.name).None? ==>
        Snapshot() == old(Snapshot()).(typeResolvers := old(typeResolverMap.entries)[abstractType.value.name := resolver])
    {
      if abstractType.None? {
        return Fail(NullPointer);
      }
      typeResolverMap.PutIfAbsent(abstractType.value.name, resolver);
      return Pass;
    }

    /** `typeResolver(String, resolver)`: the name must be a valid GraphQL name. */
    method PutTypeResolverByName(typeName: string, resolver: Option<TypeResolver>)
      returns (outcome: Outcome<Error>)
      requires Valid()
      modifies typeResolverMap
      ensures Valid()
      ensures outcome == if IsValidName(typeName) then Pass else Fail(InvalidName(typeName))
      ensures outcome.Fail? ==> Snapshot() == old(Snapshot())
      ensures outcome.Pass? ==>
        Snapshot() == old(Snapshot()).(typeResolvers := old(typeResolverMap.entries)[typeName := resolver])
    {
      if !IsValidName(typeName) {
        return Fail(InvalidName(typeName));
      }
      typeResolverMap.Put(typeName, resolver);
      return Pass;
    }

    /** `fieldVisibility(v)`: replaces the visibility; null throws. */
    method SetFieldVisibility(visibility: Option<FieldVisibility>) returns (outcome: Outcome<Error>)
      requires Valid()
      modifies this
      ensures Valid()
      ensures outcome == if visibility.None? then Fail(NullArgument) else Pass
      ensures outcome.Fail? ==> Snapshot() == old(Snapshot())
      ensures outcome.Pass? ==> Snapshot() == old(Snapshot()).(fieldVisibility := visibility.value)
    {
      if visibility.None? {
        return Fail(NullArgument);
      }
      fieldVisibility := visibility.value;
      return Pass;
    }

    /** `clearDataFetchers`: empties the coordinate map only. */
    method ClearDataFetchers()
      requires Valid()
      modifies dataFetcherMap
      ensures Valid()
      ensures Snapshot() == old(Snapshot()).(dataFetchers := map[])
    {
      dataFetcherMap.Clear();
    }

    /** `clearTypeResolvers`: empties the type-resolver map only. */
    method ClearTypeResolvers()
      requires Valid()
      modifies typeResolverMap
      ensures Valid()
      ensures Snapshot() == old(Snapshot()).(typeResolvers := map[])
    {
      typeResolverMap.Clear();
    }

    /** One call of a mutator, dispatched to the method it names. */
    method Apply(op: BuilderOp) returns (outcome: Outcome<Error>)
      requires Valid()
      modifies this, dataFetcherMap, systemDataFetcherMap, typeResolverMap
      ensures Valid()
      ensures Snapshot() == Step(old(Snapshot()), op).state
      ensures outcome == Step(old(Snapshot()), op).outcome
    {
      match op
      case PutFetcher(c, f) => outcome := PutDataFetcher(c, f);
      case PutFactory(c, f) => outcome := PutDataFetcherFactory(c, f);
      case PutFetcherIfAbsent(c, f) => outcome := PutDataFetcherIfAbsent(c, f);
      case PutSystemFetcher(c, f) => outcome := PutSystemDataFetcher(c, f);
      case PutFetchers(p, entries) => outcome := PutDataFetchers(p, entries);
      case PutResolver(t, r) => outcome := PutTypeResolver(t, r);
      case PutResolverIfAbsent(t, r) => outcome := PutTypeResolverIfAbsent(t, r);
      case PutResolverByName(n, r) => outcome := PutTypeResolverByName(n, r);
      case SetVisibility(v) => outcome := SetFieldVisibility(v);
      case ClearFetchers => ClearDataFetchers(); outcome := Pass;
      case ClearResolvers => ClearTypeResolvers(); outcome := Pass;
    }

    /** `build()`: a new registry over this builder's own map objects (not
        copies) and its current visibility. */
    method Build() returns (registry: GraphQLCodeRegistry)
      ensures fresh(registry)
      ensures registry.dataFetcherMap == dataFetcherMap
      ensures registry.systemDataFetcherMap == systemDataFetcherMap
      ensures registry.typeResolverMap == typeResolverMap
      ensures registry.fieldVisibility == fieldVisibility
    {
      registry := new GraphQLCodeRegistry(dataFetcherMap, systemDataFetcherMap, typeResolverMap, fieldVisibility);
    }
  }

  /** Because `build()` shares the builder's maps, a binding made on the
      builder after `build()` shows up in the registry already built, while a
      visibility set afterwards does not. */
  method BuiltRegistrySeesLaterBindings(c: FieldCoordinates, f: DataFetcher, v: FieldVisibility)
    returns (before: Result<FactoryGet, Error>, after: Result<FactoryGet, Error>, visibility: FieldVisibility)
    ensures before == Success(FactoryGet(DefaultDataFetcherFactory(c.fieldName), FactoryEnvironment(FieldDefinition(c.fieldName))))
    ensures after == Success(FactoryGet(UseDataFetcher(Some(f)), FactoryEnvironment(FieldDefinition(c.fieldName))))
    ensures visibility == DefaultFieldVisibility
  {
    var builder := new Builder();
    var registry := builder.Build();
    var parentType, fieldDefinition := FieldsContainer(c.parentTypeName), FieldDefinition(c.fieldName);
    before := registry.GetDataFetcher(Some(parentType), Some(fieldDefinition));
    var bound := builder.PutDataFetcher(Some(c), Some(f));
    var changed := builder.SetFieldVisibility(Some(v));
    after := registry.GetDataFetcher(Some(parentType), Some(fieldDefinition));
    visibility := registry.GetFieldVisibility();
  }
}
