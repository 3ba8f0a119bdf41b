/** The code registry's state as a value, and what each builder operation
    does to it. `Builder` in CodeRegistry.dfy is proved to change its maps as
    `Step` says; the lemmas here state what that means for lookups. */
module BuilderSpec {
  import opened Wrappers
  import opened Schema
  import opened JavaMaps
  import opened Lookup

  /** The contents of the three maps and the field visibility. */
  datatype State = State(
    dataFetchers: FetcherMap,
    systemDataFetchers: SystemFetcherMap,
    typeResolvers: ResolverMap,
    fieldVisibility: FieldVisibility)

  /** A fresh builder: no bindings, the default field visibility. */
  const Empty: State := State(map[], map[], map[], DefaultFieldVisibility)

  /** The entries of a `Map<String, DataFetcher>` in its iteration order. */
  type FieldFetchers = seq<(string, Option<DataFetcher>)>

  /** One call on a builder, as a mutator passed to `transform` makes it. */
  datatype BuilderOp =
    | PutFetcher(coordinates: Option<FieldCoordinates>, fetcher: Option<DataFetcher>)
    | PutFactory(coordinates: Option<FieldCoordinates>, factory: Option<DataFetcherFactory>)
    | PutFetcherIfAbsent(coordinates: Option<FieldCoordinates>, fetcher: Option<DataFetcher>)
    | PutSystemFetcher(coordinates: Option<FieldCoordinates>, fetcher: Option<DataFetcher>)
    | PutFetchers(parentTypeName: string, fieldFetchers: Option<FieldFetchers>)
    | PutResolver(abstractType: Option<AbstractType>, resolver: Option<TypeResolver>)
    | PutResolverIfAbsent(abstractType: Option<AbstractType>, resolver: Option<TypeResolver>)
    | PutResolverByName(typeName: string, resolver: Option<TypeResolver>)
    | SetVisibility(visibility: Option<FieldVisibility>)
    | ClearFetchers
    | ClearResolvers

  datatype StepResult = StepResult(state: State, outcome: Outcome<Error>)

  datatype BulkResult = BulkResult(dataFetchers: FetcherMap, outcome: Outcome<Error>)

  predicate DistinctNames(entries: FieldFetchers) {
    forall i, j :: 0 <= i < j < |entries| ==> entries[i].0 != entries[j].0
  }

  /** The coordinates `(parentTypeName, name)` for every entry. */
  function BoundKeys(parentTypeName: string, entries: FieldFetchers): set<FieldCoordinates> {
    set i | 0 <= i < |entries| :: FieldCoordinates(parentTypeName, entries[i].0)
  }

  /** The index of the first entry whose fetcher is null, or the length. */
  function FirstNull(entries: FieldFetchers): (k: nat)
    ensures k <= |entries|
    ensures forall i :: 0 <= i < k ==> entries[i].1.Some?
    ensures k < |entries| ==> entries[k].1.None?
  {
    if entries == [] then 0
    else
      var n := |entries| - 1;
      var k := FirstNull(entries[..n]);
      if k < n then k else if entries[n].1.None? then n else n + 1
  }

  /** `dataFetchers(parentTypeName, map)`: each entry in turn goes through the
      non-null check of `dataFetcher`, so a null fetcher stops the loop after
      the entries before it are bound. */
  function BindAll(m: FetcherMap, parentTypeName: string, entries: FieldFetchers): (r: BulkResult)
    ensures r.outcome == if FirstNull(entries) == |entries| then Pass else Fail(NullArgument)
  {
    if entries == [] then BulkResult(m, Pass)
    else
      var n := |entries| - 1;
      var prev := BindAll(m, parentTypeName, entries[..n]);
      if prev.outcome.Fail? then prev
      else if entries[n].1.None? then BulkResult(prev.dataFetchers, Fail(NullArgument))
      else BulkResult(prev.dataFetchers[FieldCoordinates(parentTypeName, entries[n].0) := Some(UseDataFetcher(entries[n].1))], Pass)
  }

  /** A coordinate that no entry names keeps its binding, or its absence. */
  lemma {:induction false} BindAllKeepsOthers(m: FetcherMap, p: string, entries: FieldFetchers, c: FieldCoordinates)
    requires c !in BoundKeys(p, entries)
    ensures c in BindAll(m, p, entries).dataFetchers <==> c in m
    ensures c in m ==> BindAll(m, p, entries).dataFetchers[c] == m[c]
    decreases |entries|
  {
    if entries != [] {
      var n := |entries| - 1;
      assert BoundKeys(p, entries[..n]) <= BoundKeys(p, entries) by {
        forall c' | c' in BoundKeys(p, entries[..n]) ensures c' in BoundKeys(p, entries) {
          var i :| 0 <= i < n && c' == FieldCoordinates(p, entries[..n][i].0);
          assert c' == FieldCoordinates(p, entries[i].0);
        }
      }
      BindAllKeepsOthers(m, p, entries[..n], c);
      assert c != FieldCoordinates(p, entries[n].0);
    }
  }

  /** With distinct field names, every entry before the first null fetcher is
      bound to its own fetcher, and every entry from it on is left as it was. */
  lemma {:induction false} BindAllBindsPrefix(m: FetcherMap, p: string, entries: FieldFetchers, i: nat)
    requires DistinctNames(entries) && i < |entries|
    ensures var c := FieldCoordinates(p, entries[i].0);
      var r := BindAll(m, p, entries).dataFetchers;
      && (i < FirstNull(entries) ==> c in r && r[c] == Some(UseDataFetcher(entries[i].1)))
      && (FirstNull(entries) <= i ==> (c in r <==> c in m) && (c in m ==> r[c] == m[c]))
    decreases |entries|
  {
    var n := |entries| - 1;
    var c := FieldCoordinates(p, entries[i].0);
    if i < n {
      BindAllBindsPrefix(m, p, entries[..n], i);
      assert entries[..n][i] == entries[i];
      assert c != FieldCoordinates(p, entries[n].0);
    } else {
      forall j | 0 <= j < n ensures FieldCoordinates(p, entries[..n][j].0) != c {
        assert entries[..n][j] == entries[j];
      }
      BindAllKeepsOthers(m, p, entries[..n], c);
    }
  }

  /** Once an entry has thrown, the later ones are never reached. */
  lemma {:induction false} BindAllStopsAtFailure(m: FetcherMap, p: string, entries: FieldFetchers, k: nat)
    requires k <= |entries| && BindAll(m, p, entries[..k]).outcome.Fail?
    ensures BindAll(m, p, entries) == BindAll(m, p, entries[..k])
    decreases |entries|
  {
    if k == |entries| {
      assert entries[..k] == entries;
    } else {
      var n := |entries| - 1;
      assert entries[..n][..k] == entries[..k];
      BindAllStopsAtFailure(m, p, entries[..n], k);
    }
  }

  /** What one builder call does to the state, and whether it throws. */
  function Step(s: State, op: BuilderOp): StepResult {
    match op
    case PutFetcher(c, f) =>
      if f.None? || c.None? then StepResult(s, Fail(NullArgument))
      else StepResult(s.(dataFetchers := s.dataFetchers[c.value := Some(UseDataFetcher(f))]), Pass)
    case PutFactory(c, f) =>
      if f.None? || c.None? then StepResult(s, Fail(NullArgument))
      else StepResult(s.(dataFetchers := s.dataFetchers[c.value := f]), Pass)
    case PutFetcherIfAbsent(c, f) =>
      if c.None? then StepResult(s, Fail(NullArgument))
      else if Get(s.dataFetchers, c.value).Some? then StepResult(s, Pass)
      else StepResult(s.(dataFetchers := s.dataFetchers[c.value := Some(UseDataFetcher(f))]), Pass)
    case PutSystemFetcher(c, f) =>
      if f.None? || c.None? then StepResult(s, Fail(NullArgument))
      else if !IsSystemFieldName(c.value.fieldName) then StepResult(s, Fail(AssertFailed(SYSTEM_FIELDS_ONLY)))
      else StepResult(s.(systemDataFetchers := s.systemDataFetchers[c.value.fieldName := Some(UseDataFetcher(f))]), Pass)
    case PutFetchers(p, entries) =>
      if entries.None? then StepResult(s, Fail(NullArgument))
      else
        var b := BindAll(s.dataFetchers, p, entries.value);
        StepResult(s.(dataFetchers := b.dataFetchers), b.outcome)
    case PutResolver(t, r) =>
      if t.None? then StepResult(s, Fail(NullPointer))
      else StepResult(s.(typeResolvers := s.typeResolvers[t.value.name := r]), Pass)
    case PutResolverIfAbsent(t, r) =>
      if t.None? then StepResult(s, Fail(NullPointer))
      else if Get(s.typeResolvers, t.value.name).Some? then StepResult(s, Pass)
      else StepResult(s.(typeResolvers := s.typeResolvers[t.value.name := r]), Pass)
    case PutResolverByName(n, r) =>
      if !IsValidName(n) then StepResult(s, Fail(InvalidName(n)))
      else StepResult(s.(typeResolvers := s.typeResolvers[n := r]), Pass)
    case SetVisibility(v) =>
      if v.None? then StepResult(s, Fail(NullArgument))
      else StepResult(s.(fieldVisibility := v.value), Pass)
    case ClearFetchers => StepResult(s.(dataFetchers := map[]), Pass)
    case ClearResolvers => StepResult(s.(typeResolvers := map[]), Pass)
  }

  /** The calls of a mutator in order; the first one that throws ends it. */
  function ApplyAll(s: State, ops: seq<BuilderOp>): Result<State, Error> {
    if ops == [] then Success(s)
    else
      match ApplyAll(s, ops[..|ops| - 1])
      case Failure(e) => Failure(e)
      case Success(t) =>
        var r := Step(t, ops[|ops| - 1]);
        if r.outcome.Fail? then Failure(r.outcome.error) else Success(r.state)
  }

  /** Once a call has thrown, the rest of the mutator is never run. */
  lemma {:induction false} ApplyAllStopsAtFailure(s: State, ops: seq<BuilderOp>, k: nat)
    requires k <= |ops| && ApplyAll(s, ops[..k]).Failure?
    ensures ApplyAll(s, ops) == ApplyAll(s, ops[..k])
    decreases |ops|
  {
    if k == |ops| {
      assert ops[..k] == ops;
    } else {
      var n := |ops| - 1;
      assert ops[..n][..k] == ops[..k];
      ApplyAllStopsAtFailure(s, ops[..n], k);
    }
  }

  /** A builder seeded from a registry: the coordinate map, the type-resolver
      map and the visibility are copied, the system map is left empty. */
  function Seed(registry: State): State {
    State(registry.dataFetchers, map[], registry.typeResolvers, registry.fieldVisibility)
  }

  /** The state `transform` builds from, given the registry's state and the mutator's calls. */
  function Transformed(registry: State, ops: seq<BuilderOp>): Result<State, Error> {
    ApplyAll(Seed(registry), ops)
  }

  // ---------------------------------------------------------------------------
  // Lookups on a state

  function DataFetcherOf(s: State, parentType: FieldsContainer, fieldDefinition: FieldDefinition): Result<FactoryGet, Error> {
    GetDataFetcherImpl(Some(parentType), Some(fieldDefinition), s.dataFetchers, s.systemDataFetchers)
  }

  function HasDataFetcherOf(s: State, c: FieldCoordinates): Result<bool, Error> {
    HasDataFetcherImpl(Some(c), s.dataFetchers, s.systemDataFetchers)
  }

  function TypeResolverOf(s: State, abstractType: AbstractType): Result<TypeResolver, Error> {
    GetTypeResolverImpl(Some(abstractType), s.typeResolvers)
  }

  /** Every key of the system map is a reserved `__` name. */
  predicate SystemNamesReserved(s: State) {
    forall name :: name in s.systemDataFetchers ==> IsSystemFieldName(name)
  }

  /** A new builder binds nothing: no field has an explicit fetcher, every
      field gets the property default, and only inline type resolvers resolve. */
  lemma EmptyBindsNothing(c: FieldCoordinates, parentType: FieldsContainer, fieldDefinition: FieldDefinition, t: AbstractType)
    ensures HasDataFetcherOf(Empty, c) == Success(false)
    ensures DataFetcherOf(Empty, parentType, fieldDefinition)
      == Success(FactoryGet(DefaultDataFetcherFactory(fieldDefinition.name), FactoryEnvironment(fieldDefinition)))
    ensures TypeResolverOf(Empty, t).Success? <==> t.typeResolver.Some?
    ensures Empty.fieldVisibility == DefaultFieldVisibility
  {
  }

  // ---------------------------------------------------------------------------
  // Data-fetcher setters

  /** `dataFetcher(coordinates, fetcher)`: throws exactly on a null argument;
      otherwise the field has an explicit fetcher and, unless a system entry
      for its name takes precedence, looks up to that fetcher. */
  lemma PutFetcherBinds(s: State, parentType: FieldsContainer, fieldDefinition: FieldDefinition,
                        c: Option<FieldCoordinates>, f: Option<DataFetcher>)
    requires c == Some(CoordinatesOf(parentType, fieldDefinition))
    ensures Step(s, PutFetcher(c, f)).outcome.Fail? <==> f.None?
    ensures f.None? ==> Step(s, PutFetcher(c, f)).state == s
    ensures f.Some? ==> HasDataFetcherOf(Step(s, PutFetcher(c, f)).state, c.value) == Success(true)
    ensures f.Some? && Get(s.systemDataFetchers, fieldDefinition.name).None? ==>
      DataFetcherOf(Step(s, PutFetcher(c, f)).state, parentType, fieldDefinition)
        == Success(FactoryGet(UseDataFetcher(f), FactoryEnvironment(fieldDefinition)))
  {
  }

  /** `dataFetcherIfAbsent`: an existing binding is kept; calling it twice on
      an unbound field keeps the first fetcher. */
  lemma PutFetcherIfAbsentKeepsFirst(s: State, c: FieldCoordinates, first: Option<DataFetcher>, second: Option<DataFetcher>)
    requires Get(s.dataFetchers, c).None?
    ensures ApplyAll(s, [PutFetcherIfAbsent(Some(c), first), PutFetcherIfAbsent(Some(c), second)])
      == Success(s.(dataFetchers := s.dataFetchers[c := Some(UseDataFetcher(first))]))
  {
    var ops := [PutFetcherIfAbsent(Some(c), first), PutFetcherIfAbsent(Some(c), second)];
    assert ops[..1][..0] == [];
    assert ApplyAll(s, ops[..1]) == Success(s.(dataFetchers := s.dataFetchers[c := Some(UseDataFetcher(first))]));
  }

  /** `dataFetcherIfAbsent` never replaces a non-null binding. */
  lemma PutFetcherIfAbsentKeepsExisting(s: State, c: FieldCoordinates, f: Option<DataFetcher>)
    requires Get(s.dataFetchers, c).Some?
    ensures Step(s, PutFetcherIfAbsent(Some(c), f)) == StepResult(s, Pass)
  {
  }

  /** `systemDataFetcher`: throws unless the field name starts with `__`,
      leaving the state alone; otherwise the fetcher is found for that field
      name under every parent type, ahead of any coordinate entry. */
  lemma PutSystemFetcherGuarded(s: State, c: FieldCoordinates, f: DataFetcher,
                                parentType: FieldsContainer, fieldDefinition: FieldDefinition)
    requires fieldDefinition.name == c.fieldName
    ensures Step(s, PutSystemFetcher(Some(c), Some(f))).outcome.Pass? <==> IsSystemFieldName(c.fieldName)
    ensures !IsSystemFieldName(c.fieldName) ==>
      Step(s, PutSystemFetcher(Some(c), Some(f))) == StepResult(s, Fail(AssertFailed(SYSTEM_FIELDS_ONLY)))
    ensures IsSystemFieldName(c.fieldName) ==>
      DataFetcherOf(Step(s, PutSystemFetcher(Some(c), Some(f))).state, parentType, fieldDefinition)
        == Success(FactoryGet(UseDataFetcher(Some(f)), FactoryEnvironment(fieldDefinition)))
  {
  }

  /** A system fetcher and a table fetcher bound for the same field: the
      system one is found. */
  lemma SystemFetcherOverridesTable(s: State, parentType: FieldsContainer, fieldDefinition: FieldDefinition,
                                    tableFetcher: DataFetcher, systemFetcher: DataFetcher)
    requires IsSystemFieldName(fieldDefinition.name)
    ensures var c := CoordinatesOf(parentType, fieldDefinition);
      var r := ApplyAll(s, [PutFetcher(Some(c), Some(tableFetcher)), PutSystemFetcher(Some(c), Some(systemFetcher))]);
      r.Success? &&
      DataFetcherOf(r.value, parentType, fieldDefinition)
        == Success(FactoryGet(UseDataFetcher(Some(systemFetcher)), FactoryEnvironment(fieldDefinition)))
  {
    var c := CoordinatesOf(parentType, fieldDefinition);
    var ops := [PutFetcher(Some(c), Some(tableFetcher)), PutSystemFetcher(Some(c), Some(systemFetcher))];
    assert ops[..1][..0] == [];
    assert ApplyAll(s, ops[..1]).Success?;
  }

  /** `dataFetchers(parentTypeName, map)` with no null fetcher binds every
      entry under the parent type, and every field of that type named in the
      map looks up to its entry unless a system entry takes precedence. */
  lemma PutFetchersBindsEach(s: State, p: string, entries: FieldFetchers, fieldDefinition: FieldDefinition, i: nat)
    requires DistinctNames(entries)
    requires forall j :: 0 <= j < |entries| ==> entries[j].1.Some?
    requires i < |entries| && fieldDefinition.name == entries[i].0
    requires Get(s.systemDataFetchers, fieldDefinition.name).None?
    ensures Step(s, PutFetchers(p, Some(entries))).outcome == Pass
    ensures DataFetcherOf(Step(s, PutFetchers(p, Some(entries))).state, FieldsContainer(p), fieldDefinition)
      == Success(FactoryGet(UseDataFetcher(entries[i].1), FactoryEnvironment(fieldDefinition)))
  {
    BindAllBindsPrefix(s.dataFetchers, p, entries, i);
  }

  // ---------------------------------------------------------------------------
  // Type-resolver setters

  /** The type-resolver setters key by the type's own name (or a valid given
      name) and overwrite; afterwards `hasTypeResolver` holds for that name. */
  lemma PutResolverBinds(s: State, t: AbstractType, r: Option<TypeResolver>)
    ensures Step(s, PutResolver(Some(t), r)) == StepResult(s.(typeResolvers := s.typeResolvers[t.name := r]), Pass)
    ensures t.name in Step(s, PutResolver(Some(t), r)).state.typeResolvers
    ensures r.Some? ==> TypeResolverOf(Step(s, PutResolver(Some(t), r)).state, t) == Success(r.value)
    ensures Step(s, PutResolver(None, r)) == StepResult(s, Fail(NullPointer))
  {
  }

  /** The `IfAbsent` variant keeps a non-null binding and otherwise binds;
      either way `hasTypeResolver` holds for the type's name afterwards. */
  lemma PutResolverIfAbsentKeeps(s: State, t: AbstractType, r: Option<TypeResolver>)
    ensures Get(s.typeResolvers, t.name).Some? ==> Step(s, PutResolverIfAbsent(Some(t), r)) == StepResult(s, Pass)
    ensures Get(s.typeResolvers, t.name).None? ==>
      Step(s, PutResolverIfAbsent(Some(t), r)) == StepResult(s.(typeResolvers := s.typeResolvers[t.name := r]), Pass)
    ensures t.name in Step(s, PutResolverIfAbsent(Some(t), r)).state.typeResolvers
  {
  }

  /** The by-name setter rejects a malformed name and changes nothing;
      otherwise it binds that name. */
  lemma PutResolverByNameValidates(s: State, name: string, r: Option<TypeResolver>)
    ensures Step(s, PutResolverByName(name, r)).outcome.Fail? <==> !IsValidName(name)
    ensures !IsValidName(name) ==> Step(s, PutResolverByName(name, r)).state == s
    ensures IsValidName(name) ==> Step(s, PutResolverByName(name, r)).state.typeResolvers == s.typeResolvers[name := r]
  {
  }

  /** Binding a null resolver makes `hasTypeResolver` true while the lookup
      still falls back on the type's own resolver, and fails without one. */
  lemma NullResolverIsPresentButUnused(s: State, t: AbstractType)
    requires t.typeResolver.None?
    ensures var s' := Step(s, PutResolver(Some(t), None)).state;
      t.name in s'.typeResolvers && TypeResolverOf(s', t) == Failure(AssertFailed(MissingTypeResolverMessage(t)))
  {
  }

  // ---------------------------------------------------------------------------
  // Visibility and clearing

  /** `fieldVisibility(v)` throws on null and otherwise replaces only the visibility. */
  lemma SetVisibilityReplacesOnlyIt(s: State, v: Option<FieldVisibility>)
    ensures Step(s, SetVisibility(v)).outcome.Fail? <==> v.None?
    ensures v.Some? ==> Step(s, SetVisibility(v)).state == s.(fieldVisibility := v.value)
    ensures v.None? ==> Step(s, SetVisibility(v)).state == s
  {
  }

  /** After `clearDataFetchers` no field has a table entry: a field without a
      system entry gets the property default; system entries, type resolvers
      and the visibility stay as they were. */
  lemma ClearFetchersKeepsTheRest(s: State, parentType: FieldsContainer, fieldDefinition: FieldDefinition, t: AbstractType)
    ensures var s' := Step(s, ClearFetchers).state;
      && s'.systemDataFetchers == s.systemDataFetchers
      && s'.fieldVisibility == s.fieldVisibility
      && TypeResolverOf(s', t) == TypeResolverOf(s, t)
      && (Get(s.systemDataFetchers, fieldDefinition.name).None? ==>
            DataFetcherOf(s', parentType, fieldDefinition)
              == Success(FactoryGet(DefaultDataFetcherFactory(fieldDefinition.name), FactoryEnvironment(fieldDefinition))))
      && (Get(s.systemDataFetchers, fieldDefinition.name).Some? ==>
            DataFetcherOf(s', parentType, fieldDefinition) == DataFetcherOf(s, parentType, fieldDefinition))
  {
  }

  /** After `clearTypeResolvers` only the types' own resolvers remain; the
      data-fetcher lookups and the visibility stay as they were. */
  lemma ClearResolversKeepsTheRest(s: State, parentType: FieldsContainer, fieldDefinition: FieldDefinition, t: AbstractType)
    ensures var s' := Step(s, ClearResolvers).state;
      && s'.fieldVisibility == s.fieldVisibility
      && DataFetcherOf(s', parentType, fieldDefinition) == DataFetcherOf(s, parentType, fieldDefinition)
      && (t.typeResolver.Some? ==> TypeResolverOf(s', t) == Success(t.typeResolver.value))
      && (t.typeResolver.None? ==> TypeResolverOf(s', t).Failure?)
  {
  }

  // ---------------------------------------------------------------------------
  // Invariants over whole mutators

  /** No builder call puts a name without the `__` prefix in the system map. */
  lemma {:induction false} ApplyAllKeepsSystemNamesReserved(s: State, ops: seq<BuilderOp>)
    requires SystemNamesReserved(s)
    ensures ApplyAll(s, ops).Success? ==> SystemNamesReserved(ApplyAll(s, ops).value)
    decreases |ops|
  {
    if ops != [] {
      ApplyAllKeepsSystemNamesReserved(s, ops[..|ops| - 1]);
    }
  }

  /** When system names are reserved, a field whose name lacks the `__`
      prefix is looked up in the coordinate map and the default alone. */
  lemma OrdinaryFieldIgnoresSystemMap(s: State, parentType: FieldsContainer, fieldDefinition: FieldDefinition)
    requires SystemNamesReserved(s)
    requires !IsSystemFieldName(fieldDefinition.name)
    ensures DataFetcherOf(s, parentType, fieldDefinition)
         == GetDataFetcherImpl(Some(parentType), Some(fieldDefinition), s.dataFetchers, map[])
  {
  }

  /** Without a clear, a mutator never unbinds a coordinate or a type name. */
  lemma {:induction false} ApplyAllWithoutClearKeepsKeys(s: State, ops: seq<BuilderOp>)
    requires forall i :: 0 <= i < |ops| ==> !ops[i].ClearFetchers? && !ops[i].ClearResolvers?
    ensures ApplyAll(s, ops).Success? ==>
      && s.dataFetchers.Keys <= ApplyAll(s, ops).value.dataFetchers.Keys
      && s.typeResolvers.Keys <= ApplyAll(s, ops).value.typeResolvers.Keys
      && s.systemDataFetchers.Keys <= ApplyAll(s, ops).value.systemDataFetchers.Keys
    decreases |ops|
  {
    if ops != [] {
      var n := |ops| - 1;
      ApplyAllWithoutClearKeepsKeys(s, ops[..n]);
      if ApplyAll(s, ops[..n]).Success? {
        var t := ApplyAll(s, ops[..n]).value;
        StepKeepsKeys(t, ops[n]);
      }
    }
  }

  lemma StepKeepsKeys(t: State, op: BuilderOp)
    requires !op.ClearFetchers? && !op.ClearResolvers?
    ensures t.dataFetchers.Keys <= Step(t, op).state.dataFetchers.Keys
    ensures t.typeResolvers.Keys <= Step(t, op).state.typeResolvers.Keys
    ensures t.systemDataFetchers.Keys <= Step(t, op).state.systemDataFetchers.Keys
  {
    if op.PutFetchers? && op.fieldFetchers.Some? {
      BindAllKeepsKeys(t.dataFetchers, op.parentTypeName, op.fieldFetchers.value);
    }
  }

  /** `dataFetchers(...)` only adds bindings, even when it stops early. */
  lemma {:induction false} BindAllKeepsKeys(m: FetcherMap, p: string, entries: FieldFetchers)
    ensures m.Keys <= BindAll(m, p, entries).dataFetchers.Keys
    decreases |entries|
  {
    if entries != [] {
      BindAllKeepsKeys(m, p, entries[..|entries| - 1]);
    }
  }

  // ---------------------------------------------------------------------------
  // Seeding and transform

  /** A no-op `transform` keeps every lookup that does not go through the
      system map, `hasDataFetcher` for such fields, every type-resolver
      lookup and the visibility. */
  lemma NoOpTransformKeepsTableLookups(r: State, parentType: FieldsContainer, fieldDefinition: FieldDefinition, t: AbstractType)
    requires Get(r.systemDataFetchers, fieldDefinition.name).None?
    ensures Transformed(r, []).Success?
    ensures var s := Transformed(r, []).value;
      && DataFetcherOf(s, parentType, fieldDefinition) == DataFetcherOf(r, parentType, fieldDefinition)
      && HasDataFetcherOf(s, CoordinatesOf(parentType, fieldDefinition)) == HasDataFetcherOf(r, CoordinatesOf(parentType, fieldDefinition))
      && TypeResolverOf(s, t) == TypeResolverOf(r, t)
      && s.fieldVisibility == r.fieldVisibility
  {
  }

  /** A no-op `transform` loses every system entry: a field that was served
      by one falls through to the coordinate map or the default. */
  lemma NoOpTransformDropsSystemFetchers(r: State, parentType: FieldsContainer, fieldDefinition: FieldDefinition)
    requires Get(r.systemDataFetchers, fieldDefinition.name).Some?
    ensures ChooseFactory(CoordinatesOf(parentType, fieldDefinition), r.dataFetchers, r.systemDataFetchers).SystemEntry?
    ensures Transformed(r, []).Success?
    ensures var s := Transformed(r, []).value;
      s.systemDataFetchers == map[] &&
      !ChooseFactory(CoordinatesOf(parentType, fieldDefinition), s.dataFetchers, s.systemDataFetchers).SystemEntry?
  {
  }

  /** A concrete case: `__typename` bound as a system fetcher is served by it
      before a no-op transform and by the property default after it. */
  lemma NoOpTransformLosesTypename(f: DataFetcher)
    ensures var r := State(map[], map["__typename" := Some(UseDataFetcher(Some(f)))], map[], DefaultFieldVisibility);
      var fd := FieldDefinition("__typename");
      && DataFetcherOf(r, FieldsContainer("Query"), fd) == Success(FactoryGet(UseDataFetcher(Some(f)), FactoryEnvironment(fd)))
      && Transformed(r, []).Success?
      && DataFetcherOf(Transformed(r, []).value, FieldsContainer("Query"), fd)
           == Success(FactoryGet(DefaultDataFetcherFactory("__typename"), FactoryEnvironment(fd)))
  {
  }

  /** A transform that only clears is a new state; the source state it was
      given is a value and its lookups are untouched (the in-place form of
      this is `GraphQLCodeRegistry.Transform`'s frame). With a clearing
      mutator every table-served field falls back on the default. */
  lemma ClearingTransformDefaultsTable(r: State, parentType: FieldsContainer, fieldDefinition: FieldDefinition)
    requires Get(r.systemDataFetchers, fieldDefinition.name).None?
    ensures Transformed(r, [ClearFetchers]).Success?
    ensures DataFetcherOf(Transformed(r, [ClearFetchers]).value, parentType, fieldDefinition)
      == Success(FactoryGet(DefaultDataFetcherFactory(fieldDefinition.name), FactoryEnvironment(fieldDefinition)))
  {
    assert [ClearFetchers][..0] == [];
    assert ApplyAll(Seed(r), [ClearFetchers][..0]) == Success(Seed(r));
  }
}
