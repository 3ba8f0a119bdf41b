# GraphQLCodeRegistry in Dafny

A model of graphql-java's `GraphQLCodeRegistry`. The registry holds the
execution code bound to a schema:

- the data fetchers of fields, keyed by field coordinates (parent type name, field name);
- system data fetchers for introspection fields, keyed by field name alone;
- the type resolvers of interface and union types, keyed by type name;
- the field visibility.

Its mutable `Builder` fills three maps in place and builds the registry.

Files:

- `Wrappers.dfy`: `Option`, where `None` stands for Java's `null`. Also `Result` and `Outcome`, for a call that returns or throws.
- `Schema.dfy`: the values the registry handles.
  - Field coordinates, field definitions and field containers, reduced to their names.
  - Interface and union types: a name and an optional inline resolver.
  - The opaque capabilities: data fetchers, data-fetcher factories, type resolvers and the visibility.
  - The errors the code throws. The `__` system-name test. The GraphQL Name grammar.
- `JavaMaps.dfy`: `java.util.HashMap` as a class whose `entries` may bind a key to null.
  - `get` returns null both for an absent key and for a key bound to null.
  - `putIfAbsent` also replaces a null value.
  - `containsKey` counts a key bound to null.
- `Lookup.dfy`: the read-only lookups shared by registry and builder (`getDataFetcherImpl`, `hasDataFetcherImpl`, `getTypeResolverFor*`).
  - They work on map contents.
  - A field lookup is reported as a tagged choice: system entry, table entry or property default.
- `BuilderSpec.dfy`: the registry's contents as a value (`State`), and one builder call as a value (`BuilderOp`).
  - `Step` says what each call does and whether it throws.
  - `ApplyAll` runs a mutator's calls, and `Transformed` is `transform` on values.
  - The lemmas state the lookup policy and the setters' guarantees.
  - Invariants over whole mutators: system names stay reserved, and only a clear removes a binding.
  - A seeded builder, and so a transform with a no-op mutator, keeps every lookup except those served by the system map.
- `CodeRegistry.dfy`: the two classes.
  - `Builder`'s methods update its three map objects in place and say exactly what the new contents are.
  - `Builder.Apply` is proved to agree with `Step`.
  - `GraphQLCodeRegistry.Transform` is proved to agree with `Transformed`, and it leaves the source registry's maps alone.
  - `Build` hands the builder's own map objects to the registry.

Two behaviours of the code are modelled as written, although an immutable
registry built by copying would behave differently:

- `build()` does not copy (source line 347). The registry and the builder share the three maps. `BuiltRegistrySeesLaterBindings` shows that a `dataFetcher` call made on the builder after `build()` changes the built registry's lookup. A visibility set after `build()` does not change it. So the registry is not a snapshot.
- A builder seeded from a registry copies the coordinate map, the type-resolver map and the visibility. It does not copy the system map (lines 172-176). `transform` with a no-op mutator therefore loses every system fetcher (`NoOpTransformDropsSystemFetchers`, `NoOpTransformLosesTypename`).

Null arguments are modelled as the code treats them:

- `assertNotNull` and a dereference of null are distinct errors (`NullArgument`, `NullPointer`).
- `dataFetcherIfAbsent` checks only its coordinates, so a null fetcher gets wrapped and stored.
- `typeResolver(type, null)` stores a null value. After it `hasTypeResolver` is true, yet the lookup still falls back on the type's inline resolver (`NullResolverIsPresentButUnused`).
- `dataFetchers(parent, map)` throws at the first null fetcher, after binding the entries before it (`BindAllBindsPrefix`).

## Model

| member | source | states |
|---|---|---|
| `Schema.MissingTypeResolverMessage` | src/main/java/graphql/schema/GraphQLCodeRegistry.java:117-126 | the failure message for an unresolvable interface or union ends with the type's name |
| `Lookup.ChooseFactory` | src/main/java/graphql/schema/GraphQLCodeRegistry.java:65-71 | a system entry for the field name exactly when the system map has one; otherwise a table entry exactly when the coordinate map has one; otherwise the property default for the field name |
| `Lookup.GetDataFetcherImpl` | src/main/java/graphql/schema/GraphQLCodeRegistry.java:61-75 | fails, with the not-null assertion, exactly when the parent type or field definition is null. Otherwise the factory comes from the system map by field name, else the coordinate map, else the property default. It is called with an environment carrying the field definition |
| `Lookup.HasDataFetcherImpl` | src/main/java/graphql/schema/GraphQLCodeRegistry.java:77-85 | fails exactly on null coordinates; otherwise true iff the system map has the field name or the coordinate map has the coordinates |
| `Lookup.GetTypeResolverImpl` | src/main/java/graphql/schema/GraphQLCodeRegistry.java:111-127 | null type fails the not-null assertion. Otherwise the map's resolver for the type's name wins, then the type's inline resolver. With neither, an assertion failure whose message names the interface or union |
| `Lookup.HasDataFetcherIffNotDefaulted` | src/main/java/graphql/schema/GraphQLCodeRegistry.java:61-85 | `hasDataFetcher` is true exactly when the lookup does not fall back on the default; when false, `getDataFetcher` returns the property default |
| `Lookup.TypeResolverFailsIffUnbound` | src/main/java/graphql/schema/GraphQLCodeRegistry.java:111-127 | for a non-null type, resolution fails iff neither the map nor the type has a resolver |
| `Lookup.SystemEntryIgnoresParentType` | src/main/java/graphql/schema/GraphQLCodeRegistry.java:65 | a field name with a system entry looks up the same under every parent type |
| `BuilderSpec.BindAll` | src/main/java/graphql/schema/GraphQLCodeRegistry.java:298-304 | the bulk setter passes iff no fetcher in the map is null, and throws the not-null assertion otherwise |
| `BuilderSpec.BindAllKeepsOthers` | src/main/java/graphql/schema/GraphQLCodeRegistry.java:298-304 | coordinates that no entry names keep their binding or their absence |
| `BuilderSpec.BindAllBindsPrefix` | src/main/java/graphql/schema/GraphQLCodeRegistry.java:298-304 | each entry before the first null fetcher is bound under (parent, name) to its own fetcher; each entry from the null one on is left as it was |
| `BuilderSpec.BindAllStopsAtFailure` | src/main/java/graphql/schema/GraphQLCodeRegistry.java:300-302 | once an entry has thrown, the later entries change nothing |
| `BuilderSpec.BindAllKeepsKeys` | src/main/java/graphql/schema/GraphQLCodeRegistry.java:298-304 | the bulk setter never unbinds a coordinate, even when it throws |
| `BuilderSpec.ApplyAllStopsAtFailure` | src/main/java/graphql/schema/GraphQLCodeRegistry.java:138-141 | a call that throws ends the mutator; the calls after it have no effect |
| `BuilderSpec.EmptyBindsNothing` | src/main/java/graphql/schema/GraphQLCodeRegistry.java:163-166 | a new builder has no explicit fetcher for any field, so every field gets the property default. Only inline type resolvers resolve, and the visibility is the default |
| `BuilderSpec.PutFetcherBinds` | src/main/java/graphql/schema/GraphQLCodeRegistry.java:242-245 | with non-null coordinates, `dataFetcher` throws exactly on a null fetcher and then changes nothing. Otherwise `hasDataFetcher` becomes true, and the field looks up to the new fetcher unless a system entry for its name takes precedence |
| `BuilderSpec.PutFetcherIfAbsentKeepsFirst` | src/main/java/graphql/schema/GraphQLCodeRegistry.java:285-288 | two `dataFetcherIfAbsent` calls on an unbound field keep the first fetcher |
| `BuilderSpec.PutFetcherIfAbsentKeepsExisting` | src/main/java/graphql/schema/GraphQLCodeRegistry.java:285-288 | `dataFetcherIfAbsent` on a bound field passes and changes nothing |
| `BuilderSpec.PutSystemFetcherGuarded` | src/main/java/graphql/schema/GraphQLCodeRegistry.java:255-261 | `systemDataFetcher` passes iff the field name starts with `__`; otherwise it throws "Only __ system fields can be used here" and changes nothing; on success the field looks up to the new fetcher under every parent type |
| `BuilderSpec.SystemFetcherOverridesTable` | src/main/java/graphql/schema/GraphQLCodeRegistry.java:65-71 | a table fetcher and a system fetcher bound for the same `__` field: the lookup returns the system one |
| `BuilderSpec.PutFetchersBindsEach` | src/main/java/graphql/schema/GraphQLCodeRegistry.java:298-304 | with no null fetcher, the bulk setter passes. Each named field of that parent type then looks up to its own entry, unless a system entry for its name takes precedence |
| `BuilderSpec.PutResolverBinds` | src/main/java/graphql/schema/GraphQLCodeRegistry.java:306-309 | `typeResolver(type, r)` overwrites the binding for the type's own name, so `hasTypeResolver` becomes true and a non-null `r` is what the lookup returns. A null type throws a null-pointer error |
| `BuilderSpec.PutResolverIfAbsentKeeps` | src/main/java/graphql/schema/GraphQLCodeRegistry.java:311-314 | `typeResolverIfAbsent` keeps a non-null binding, binds otherwise, and leaves `hasTypeResolver` true either way |
| `BuilderSpec.PutResolverByNameValidates` | src/main/java/graphql/schema/GraphQLCodeRegistry.java:326-329 | the by-name setter throws iff the name is not a valid GraphQL name, changing nothing; otherwise it binds that name |
| `BuilderSpec.NullResolverIsPresentButUnused` | src/main/java/graphql/schema/GraphQLCodeRegistry.java:219-221 | binding a null resolver makes `hasTypeResolver` true; for a type without an inline resolver, the lookup still fails |
| `BuilderSpec.SetVisibilityReplacesOnlyIt` | src/main/java/graphql/schema/GraphQLCodeRegistry.java:331-334 | `fieldVisibility` throws exactly on null and otherwise replaces only the visibility |
| `BuilderSpec.ClearFetchersKeepsTheRest` | src/main/java/graphql/schema/GraphQLCodeRegistry.java:336-339 | after `clearDataFetchers`, fields without a system entry get the default. System-served fields, type resolvers and the visibility are unchanged |
| `BuilderSpec.ClearResolversKeepsTheRest` | src/main/java/graphql/schema/GraphQLCodeRegistry.java:341-344 | after `clearTypeResolvers` only inline resolvers resolve, and a type without one fails; field lookups and visibility are unchanged |
| `BuilderSpec.ApplyAllKeepsSystemNamesReserved` | src/main/java/graphql/schema/GraphQLCodeRegistry.java:255-261 | no sequence of builder calls puts a name without the `__` prefix into the system map |
| `BuilderSpec.OrdinaryFieldIgnoresSystemMap` | src/main/java/graphql/schema/GraphQLCodeRegistry.java:65 | while system names are reserved, a field whose name lacks `__` is looked up as if the system map were empty |
| `BuilderSpec.ApplyAllWithoutClearKeepsKeys` | src/main/java/graphql/schema/GraphQLCodeRegistry.java:242-329 | a mutator without a clear never unbinds a coordinate, a type name or a system name |
| `BuilderSpec.StepKeepsKeys` | src/main/java/graphql/schema/GraphQLCodeRegistry.java:242-334 | no single builder call other than the two clears removes a key from any map |
| `BuilderSpec.NoOpTransformKeepsTableLookups` | src/main/java/graphql/schema/GraphQLCodeRegistry.java:172-176 | a no-op transform keeps every lookup not served by the system map. It also keeps `hasDataFetcher` for those fields, every type-resolver lookup and the visibility |
| `BuilderSpec.NoOpTransformDropsSystemFetchers` | src/main/java/graphql/schema/GraphQLCodeRegistry.java:172-176 | after a no-op transform the system map is empty, and a field the source served from it is no longer a system entry |
| `BuilderSpec.NoOpTransformLosesTypename` | src/main/java/graphql/schema/GraphQLCodeRegistry.java:172-176 | concretely, a `__typename` system fetcher is returned before a no-op transform and the property default after it |
| `BuilderSpec.ClearingTransformDefaultsTable` | src/main/java/graphql/schema/GraphQLCodeRegistry.java:138-142 | a transform that clears the data fetchers leaves every field without a system entry on the property default |
| `CodeRegistry.GraphQLCodeRegistry.constructor` | src/main/java/graphql/schema/GraphQLCodeRegistry.java:35-40 | the registry keeps the given map objects themselves |
| `CodeRegistry.GraphQLCodeRegistry.GetFieldVisibility` | src/main/java/graphql/schema/GraphQLCodeRegistry.java:45-47 | returns the visibility fixed at construction |
| `CodeRegistry.GraphQLCodeRegistry.GetDataFetcher` | src/main/java/graphql/schema/GraphQLCodeRegistry.java:57-59 | the shared field lookup over the registry's maps as they are at the time of the call |
| `CodeRegistry.GraphQLCodeRegistry.GetTypeResolver` | src/main/java/graphql/schema/GraphQLCodeRegistry.java:95-109 | the shared type-resolver lookup, for interfaces and unions alike |
| `CodeRegistry.GraphQLCodeRegistry.Transform` | src/main/java/graphql/schema/GraphQLCodeRegistry.java:138-142 | throws exactly when the mutator's calls on the seeded state throw, with that error. Otherwise the new registry's contents are those calls applied to the seeded state, in new map objects. The source registry's maps are unchanged |
| `CodeRegistry.Builder.constructor` | src/main/java/graphql/schema/GraphQLCodeRegistry.java:163-170 | a new builder has three new, empty, distinct maps and the default visibility |
| `CodeRegistry.Builder.Seeded` | src/main/java/graphql/schema/GraphQLCodeRegistry.java:172-176 | a seeded builder has new maps holding the registry's coordinate and type-resolver bindings, its visibility, and an empty system map |
| `CodeRegistry.Builder.GetDataFetcher` | src/main/java/graphql/schema/GraphQLCodeRegistry.java:186-188 | the shared field lookup over the builder's maps |
| `CodeRegistry.Builder.HasDataFetcher` | src/main/java/graphql/schema/GraphQLCodeRegistry.java:197-199 | the shared explicit-binding test over the builder's maps |
| `CodeRegistry.Builder.GetTypeResolver` | src/main/java/graphql/schema/GraphQLCodeRegistry.java:208-232 | the shared type-resolver lookup over the builder's map |
| `CodeRegistry.Builder.HasTypeResolver` | src/main/java/graphql/schema/GraphQLCodeRegistry.java:219-221 | true iff the type name is a key of the map, even when bound to null; the inline resolver is not consulted |
| `CodeRegistry.Builder.PutDataFetcherFactory` | src/main/java/graphql/schema/GraphQLCodeRegistry.java:271-275 | throws on a null factory or coordinates, changing nothing; otherwise overwrites the coordinates' binding and nothing else |
| `CodeRegistry.Builder.PutDataFetcher` | src/main/java/graphql/schema/GraphQLCodeRegistry.java:242-245 | throws on a null fetcher or coordinates, changing nothing; otherwise binds the wrapped fetcher and changes nothing else |
| `CodeRegistry.Builder.PutDataFetcherIfAbsent` | src/main/java/graphql/schema/GraphQLCodeRegistry.java:285-288 | throws only on null coordinates. A field with a non-null binding keeps it. Otherwise the wrapped fetcher is bound, even a null one |
| `CodeRegistry.Builder.PutSystemDataFetcher` | src/main/java/graphql/schema/GraphQLCodeRegistry.java:255-261 | null checks first, then the `__` guard. On success only the system map changes, at the bare field name. The builder invariant, that every system name is reserved, is kept |
| `CodeRegistry.Builder.PutDataFetchers` | src/main/java/graphql/schema/GraphQLCodeRegistry.java:298-304 | a null map throws and changes nothing. Otherwise the coordinate map and the outcome are exactly `BindAll`'s, including a stop partway at a null fetcher |
| `CodeRegistry.Builder.PutTypeResolver` | src/main/java/graphql/schema/GraphQLCodeRegistry.java:306-309 | a null type throws and changes nothing; otherwise the type's own name is bound (also the union overload at lines 316-319) and nothing else changes |
| `CodeRegistry.Builder.PutTypeResolverIfAbsent` | src/main/java/graphql/schema/GraphQLCodeRegistry.java:311-314 | a null type throws; an existing non-null binding is kept; otherwise the type's name is bound (also lines 321-324) |
| `CodeRegistry.Builder.PutTypeResolverByName` | src/main/java/graphql/schema/GraphQLCodeRegistry.java:326-329 | an invalid name throws and changes nothing; otherwise that name is bound |
| `CodeRegistry.Builder.SetFieldVisibility` | src/main/java/graphql/schema/GraphQLCodeRegistry.java:331-334 | null throws; otherwise only the visibility changes |
| `CodeRegistry.Builder.ClearDataFetchers` | src/main/java/graphql/schema/GraphQLCodeRegistry.java:336-339 | empties the coordinate map; the system map, type resolvers and visibility are untouched |
| `CodeRegistry.Builder.ClearTypeResolvers` | src/main/java/graphql/schema/GraphQLCodeRegistry.java:341-344 | empties the type-resolver map; everything else is untouched |
| `CodeRegistry.Builder.Apply` | src/main/java/graphql/schema/GraphQLCodeRegistry.java:138-141 | each builder call a mutator can make changes the builder exactly as `Step` says and throws exactly what `Step` says |
| `CodeRegistry.Builder.Build` | src/main/java/graphql/schema/GraphQLCodeRegistry.java:346-348 | the new registry holds the builder's own three map objects (no copies) and its current visibility |
| `CodeRegistry.BuiltRegistrySeesLaterBindings` | src/main/java/graphql/schema/GraphQLCodeRegistry.java:346-347 | because of that sharing, a `dataFetcher` call made on the builder after `build()` changes the built registry's lookup, while a visibility set afterwards does not |

## Left out

- Null strings: type names, field names and parent type names are never null in the model.
- `FieldCoordinates.coordinates(String, String)` is not part of this model. Any name validation it performs is not modelled.
- `DataFetcherFactory.get(environment)` is foreign code. The model's result is the pair (factory, environment). The environment carries only the field definition.
- `DataFetcherFactories.useDataFetcher` is modelled as a wrapper tag. `PropertyDataFetcher` is modelled as a tag carrying the property name.
- `GraphqlFieldVisibility`, `DEFAULT_FIELD_VISIBILITY` and `TypeResolver` are opaque tags. The registry only stores and returns them.
- GraphQL types are reduced to a name, plus an optional inline resolver for interfaces and unions.
- `assertValidName` is not part of this model. It is replaced by the GraphQL Name grammar in section 2.1.9 of the GraphQL specification (June 2018). The error carries the name rather than graphql-java's message text.
- The messages of `assertNotNull` without a message argument are not modelled. Those failures are the tag `NullArgument`.
- The `Consumer` passed to `transform` is a sequence of builder calls. A callback that reads the builder and chooses its calls from what it reads is not captured.
- BuilderSpec.ApplyAll and GraphQLCodeRegistry.Transform end the mutator at the first builder call that throws. A `Consumer` that catches that exception and goes on calling the builder is not captured. Each call's own contract still gives that call's outcome.
- Insertion order of `LinkedHashMap` is not modelled; no lookup depends on it. `dataFetchers` takes its map's entries as a sequence in iteration order, since that order decides which entries are bound before a null one throws.
- The builder methods return the builder itself for chaining. The model returns only whether the call threw.
- The static `newCodeRegistry()` and `newCodeRegistry(existing)` factories are the two `Builder` constructors.
- Concurrency and thread safety are not modelled. The code makes no copy at `build()`, so there is no snapshot to reason about.
