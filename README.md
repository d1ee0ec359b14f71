# Property writer of the OData renderer, modelled in Dafny

This project models `AbstractPropertyWriter`, the type-directed dispatcher of the OData renderer. The dispatcher turns the value of one property into a string. It does three things:

- A writer is built per request. Its constructor resolves the request path to a target type once: a type name and a collection flag. If the path resolves to nothing, construction fails.
- For a null value, the writer returns whatever the null generator produces.
- For any other value, the writer looks up the declared type by name and validates the value against it, then picks a generator by the declared type's meta-type. Primitive types go to the primitive generator and complex types to the complex generator. Every other meta-type is an error.

Files:

- `wrappers.dfy`: `Option` (`None` is Java `null`), `Result` (a value or a thrown error) and `Outcome` (a `void` call that may throw).
- `edm.dfy`: the schema registry (`EntityDataModel`) as two immutable maps, one from type name to `Type` and one from class tag to `Type`. It also holds the runtime values (`Scalar` or `ListOf`), the target type, and the `Error` datatype. Each exception the source throws is one constructor of `Error`.
- `property_validation.dfy`: `isCollection`, `isEmptyCollection`, `getType`, `areValidTypesToProceed` and `validateRequest`, written as pure functions. It also gives a reference meaning of "the value conforms to the declared type" (`Conforms`). `ValidationIsConformance` proves that validation agrees with `Conforms` for homogeneous lists and for scalars.
- `property_writer.dfy`: the class `PropertyWriter`. Its `final` fields are Dafny `const` fields, so no method can change the target type after construction. None of its methods has a `modifies` clause. `Create` models the Java constructor, and `MakePropertyString` and `GetPropertyAsString` model the dispatch.
- `scenarios.dfy`: worked requests that follow from the contracts alone. These cover a string property, an empty list, a class registered under the wrong complex type, an unresolvable path, and two calls that return the same result.

Modelling choices:

- The target-type resolver (`ODataUriUtil.resolveTargetType`) is external. It is an opaque function parameter of `Create`.
- The three abstract generators are the `Generators` datatype: a null result and two pure functions of the value and the type. A concrete subclass supplies these methods once, so they are a `const` field of the writer. Their results are returned unchanged, and that includes their own errors.
- Reflection on `data.getClass()` is replaced by a class tag on every `Instance`. `getAndCheckType` becomes a lookup in the tag map, and a missing tag raises `NoTypeForClass`.
- `EntityDataModel.getType(name)` is not part of this model. When a name is missing it is modelled as returning null (`None`), like the class lookup that `getAndCheckType` guards. The outcome then follows from the Java code:
  - Validation compares `getType(data).equals(null)`, which is false.
  - An empty list still passes validation. The switch then dereferences the null type, which is modelled as the error `NullType`.
- Type identity is structural equality of `Type` values. This is the `equals` at `AbstractPropertyWriter.java:155`. A name-only comparison would differ from the code, so the model follows the code.
- The validation error carries only the declared type, as the message at line 149 does. The value's own type is not part of the error.
- The schema's meta-types other than primitive and complex are folded into `Other`. The writer treats them all the same.
- An empty list passes validation even for a scalar target. This is the source's own policy (line 154), and `Scenarios.EmptyListForScalar` records it. The model keeps it unchanged.

## Model

| member | source | states |
|---|---|---|
| `Edm.TypeByName` | odata_renderer/src/main/java/com/sdl/odata/renderer/AbstractPropertyWriter.java:159 | a name lookup gives a type exactly when the model has that name, and then the registered type |
| `Edm.GetAndCheckType` | odata_renderer/src/main/java/com/sdl/odata/renderer/AbstractPropertyWriter.java:178-180 | a class lookup succeeds exactly for registered classes, with their type (the one `ClassType` gives); otherwise it raises `NoTypeForClass` for that class |
| `Edm.ClassType` | odata_renderer/src/main/java/com/sdl/odata/renderer/AbstractPropertyWriter.java:178-180 | the type registered for a class, present exactly when the class is registered |
| `PropertyValidation.IsCollection` | odata_renderer/src/main/java/com/sdl/odata/renderer/AbstractPropertyWriter.java:189-191 | true exactly for lists (`data instanceof List`) |
| `PropertyValidation.IsEmptyCollection` | odata_renderer/src/main/java/com/sdl/odata/renderer/AbstractPropertyWriter.java:185-190 | true exactly for the empty list; an empty collection is always a collection |
| `PropertyValidation.GetType` | odata_renderer/src/main/java/com/sdl/odata/renderer/AbstractPropertyWriter.java:170-183 | an empty list always fails with `EmptyCollection`; a scalar's type is its class's type; a list's type is its first element's class's type |
| `PropertyValidation.AreValidTypesToProceed` | odata_renderer/src/main/java/com/sdl/odata/renderer/AbstractPropertyWriter.java:153-156 | an empty list is valid whatever the target's cardinality; a cardinality mismatch is invalid without a class lookup; otherwise valid iff the value's registered type equals the declared type, with lookup errors passed on; it never raises `EmptyCollection` |
| `PropertyValidation.ValidateRequest` | odata_renderer/src/main/java/com/sdl/odata/renderer/AbstractPropertyWriter.java:147-151 | passes iff the formula is true; a false formula throws `TypeMismatch` naming the declared type; errors of the formula pass through; `EmptyCollection` is unreachable |
| `PropertyValidation.CardinalityMismatchIgnoresRegistry` | odata_renderer/src/main/java/com/sdl/odata/renderer/AbstractPropertyWriter.java:154-155 | a scalar for a collection target, or a non-empty list for a scalar target, fails with `TypeMismatch` whatever classes the registry holds |
| `PropertyValidation.FirstElementDecides` | odata_renderer/src/main/java/com/sdl/odata/renderer/AbstractPropertyWriter.java:175-178 | on a homogeneous non-empty list, the first element has type `t` iff every element does |
| `PropertyValidation.ValidationIsConformance` | odata_renderer/src/main/java/com/sdl/odata/renderer/AbstractPropertyWriter.java:147-187 | for scalars and homogeneous lists, validation passes iff the value conforms: an empty list always; a scalar for a scalar target whose class type is the declared type; a list for a collection target all of whose elements have the declared type |
| `PropertyValidation.MixedListPasses` | odata_renderer/src/main/java/com/sdl/odata/renderer/AbstractPropertyWriter.java:175-178 | without homogeneity, a list whose first element has the declared type passes though a later element does not |
| `PropertyWriting.GetTargetType` | odata_renderer/src/main/java/com/sdl/odata/renderer/AbstractPropertyWriter.java:162-168 | succeeds iff the resolver returned a target type, with that type; otherwise fails with `TargetTypeEmpty` |
| `PropertyWriting.DefaultHandling` | odata_renderer/src/main/java/com/sdl/odata/renderer/AbstractPropertyWriter.java:201-205 | always fails with `UnhandledType` naming the type |
| `PropertyWriting.PropertyWriter.constructor` | odata_renderer/src/main/java/com/sdl/odata/renderer/AbstractPropertyWriter.java:42-50 | the URI, the model, the target type and the generators are stored in immutable fields |
| `PropertyWriting.PropertyWriter.Create` | odata_renderer/src/main/java/com/sdl/odata/renderer/AbstractPropertyWriter.java:46-50 | construction fails with `TargetTypeEmpty` iff the path resolves to no target type; otherwise a fresh writer holds the resolved target type |
| `PropertyWriting.PropertyWriter.GetTypeFromODataUri` | odata_renderer/src/main/java/com/sdl/odata/renderer/AbstractPropertyWriter.java:158-160 | the declared type is the model's type under the target type's name, or null when there is none |
| `PropertyWriting.PropertyWriter.MakePropertyString` | odata_renderer/src/main/java/com/sdl/odata/renderer/AbstractPropertyWriter.java:125-145 | a failed validation fails with its error; after validation, a null declared type fails with `NullType`; a primitive declared type returns exactly the primitive generator's result; a complex one returns exactly the complex generator's result; any other meta-type fails with `UnhandledType` |
| `PropertyWriting.PropertyWriter.GetPropertyAsString` | odata_renderer/src/main/java/com/sdl/odata/renderer/AbstractPropertyWriter.java:60-67 | null returns exactly the null generator's result; failed validation generates nothing; cardinality mismatches are `TypeMismatch`; a non-conforming well-formed value fails with a mismatch or an unregistered class; passing values, including every empty list, are dispatched on the declared meta-type; `Other` never yields a string |
| `Scenarios.Resolved` | odata_renderer/src/main/java/com/sdl/odata/renderer/AbstractPropertyWriter.java:46-50 | a writer built through construction with a resolver that yields the given target type holds that target type and the given model and generators |
| `Scenarios.RepeatedCallsAgree` | odata_renderer/src/main/java/com/sdl/odata/renderer/AbstractPropertyWriter.java:42-44 | two calls on one writer with the same value give the same result |
| `Scenarios.ScalarString` | odata_renderer/src/main/java/com/sdl/odata/renderer/AbstractPropertyWriter.java:129-133 | a string for a string-typed scalar target is exactly the primitive generator's output for it |
| `Scenarios.EmptyList` | odata_renderer/src/main/java/com/sdl/odata/renderer/AbstractPropertyWriter.java:154 | an empty list for a complex collection target is exactly the complex generator's output with the declared type |
| `Scenarios.EmptyListForScalar` | odata_renderer/src/main/java/com/sdl/odata/renderer/AbstractPropertyWriter.java:154 | an empty list for a scalar string target passes and goes to the primitive generator |
| `Scenarios.WrongComplexType` | odata_renderer/src/main/java/com/sdl/odata/renderer/AbstractPropertyWriter.java:148-149 | a value whose class is registered under another complex type fails with `TypeMismatch` of the declared type |
| `Scenarios.UnresolvablePath` | odata_renderer/src/main/java/com/sdl/odata/renderer/AbstractPropertyWriter.java:164-166 | a path that resolves to nothing yields `TargetTypeEmpty` and no writer |

## Left out

- Logging through SLF4J: it has no effect on behaviour.
- The concrete null, primitive and complex generators (XML/Atom and JSON): they are opaque parameters, and their results and errors pass through unchanged.
- `ODataUriUtil.resolveTargetType` and URI parsing: the resolver is an opaque function of the URI and the model.
- Building the entity data model: the registry is two immutable maps. `EntityDataModel.getType` is not part of this model, and is taken to return null for unknown names.
- Reflection (`getClass`, `getAndCheckType`): it is replaced by a class tag on each object.
- `checkNotNull` on the constructor's arguments: Dafny's object and datatype parameters are never null.
- Null elements inside a list: elements are non-null `Instance` values. The Java code would throw when it reads the class of a null first element.
- Lists nested inside lists: at runtime a nested list's class is a `List` class looked up like any other tag, so it is not modelled separately.
- The cast `(StructuredType) type` for complex types: every complex type is structured in the schema, so the cast never fails, and the complex generator takes the `Type`.
- The getters `getODataUri` and `getEntityDataModel`: they are trivial.
- Exception message text: errors are distinct `Error` constructors carrying the type or class they name.
- Concurrent use of one writer: methods change nothing and the fields are constants, so there is no shared mutable state to model.
- Overriding the protected hooks `getTypeFromODataUri`, `getType`, `isEmptyCollection`, `isCollection` and `defaultHandling`: the base implementations are modelled. In Java, a subclass whose `defaultHandling` returns normally makes `makePropertyString` return null, because `propertyXML` starts as null. The clauses that say `Other` never yields a string hold only for the base `defaultHandling`.
- Stateful or nondeterministic generators: the generators are pure functions, so `Scenarios.RepeatedCallsAgree` holds only when the concrete generators are deterministic.
