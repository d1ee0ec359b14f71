/** The part of the entity data model (the schema registry) that property
    writing consults, the runtime values it writes, and the errors it raises. */
module Edm {
  import opened Wrappers

  /** Meta-type of a schema type. Complex types are the structured ones whose
      fields the complex generator renders; every other meta-type of the
      schema is folded into `Other`. */
  datatype MetaType = Primitive | Complex | Other

  /** A schema type descriptor. Equality of these values is the `equals`
      the writer uses to compare types. */
  datatype Type = Type(name: string, metaType: MetaType)

  /** What a request path is declared to produce: the fully qualified name of
      a type and whether a collection of it is expected. */
  datatype TargetType = TargetType(typeName: string, isCollection: bool)

  /** A stable tag standing for the runtime class of an object. */
  type ClassTag = string

  /** A non-null runtime object: the tag of its class and its state, which
      only the format generators look at. */
  datatype Instance = Instance(tag: ClassTag, state: string)

  /** A non-null property value: one object, or a `java.util.List` of them. */
  datatype Value = Scalar(obj: Instance) | ListOf(items: seq<Instance>)

  /** The registry: types by fully qualified name, and the type registered
      for each runtime class. It is built elsewhere and never changes here. */
  datatype EntityDataModel = EntityDataModel(types: map<string, Type>, classes: map<ClassTag, Type>)

  /** Every way writing a property can fail. */
  datatype Error =
    | TargetTypeEmpty                      // the request path resolves to no target type
    | TypeMismatch(declared: Option<Type>) // the value does not match the declared type or cardinality
    | EmptyCollection                      // no element type can be read off an empty list
    | NoTypeForClass(tag: ClassTag)        // the value's class is not registered in the model
    | UnhandledType(unhandled: Type)       // the declared meta-type has no generator
    | NullType                             // the declared type name is unknown, so the type is null
    | Render(message: string)              // raised by a format generator

  /** The type registered under a fully qualified name; `None` when there is none. */
  function TypeByName(edm: EntityDataModel, name: string): (t: Option<Type>)
    ensures t.Some? <==> name in edm.types
    ensures t.Some? ==> t.value == edm.types[name]
  {
    if name in edm.types then Some(edm.types[name]) else None
  }

  /** The type registered for a runtime class; `None` when there is none. */
  function ClassType(edm: EntityDataModel, tag: ClassTag): (t: Option<Type>)
    ensures t.Some? <==> tag in edm.classes
    ensures t.Some? ==> t.value == edm.classes[tag]
  {
    if tag in edm.classes then Some(edm.classes[tag]) else None
  }

  /** The type of a runtime class, failing when the class is not registered. */
  function GetAndCheckType(edm: EntityDataModel, tag: ClassTag): (r: Result<Type, Error>)
    ensures r.Success? <==> tag in edm.classes
    ensures r.Success? ==> r.value == edm.classes[tag]
    ensures r.Failure? ==> r.error == NoTypeForClass(tag)
    ensures ClassType(edm, tag) == if r.Success? then Some(r.value) else None
  {
    if tag in edm.classes then Success(edm.classes[tag]) else Failure(NoTypeForClass(tag))
  }
}
