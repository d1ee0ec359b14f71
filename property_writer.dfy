/** The property writer: built once per request with the target type of the
    request path, then asked any number of times to turn a property value into
    a string. */
module PropertyWriting {
  import opened Wrappers
  import opened Edm
  import opened PropertyValidation

  /** A parsed request URI; only the target-type resolver looks inside it. */
  datatype ODataUri = ODataUri(path: string)

  /** The three format-specific generators (XML or JSON) of a concrete writer:
      the output for a null property, for a primitive value of a type, and for
      a complex value of a structured type. They may fail themselves. */
  datatype Generators = Generators(
    nullProperty: Result<string, Error>,
    primitiveProperty: (Value, Type) -> Result<string, Error>,
    complexProperty: (Value, Type) -> Result<string, Error>)

  /** The target type resolved for the request path, failing when there is none. */
  function GetTargetType(resolved: Option<TargetType>): (r: Result<TargetType, Error>)
    ensures r.Success? <==> resolved.Some?
    ensures r.Success? ==> r.value == resolved.value
    ensures r.Failure? ==> r.error == TargetTypeEmpty
  {
    match resolved
    case None => Failure(TargetTypeEmpty)
    case Some(t) => Success(t)
  }

  /** The generator outcome for a meta-type that has none: always an error. */
  function DefaultHandling(t: Type): (o: Outcome<Error>)
    ensures o.Fail? && o.error == UnhandledType(t)
  {
    Fail(UnhandledType(t))
  }

  class PropertyWriter {
    const oDataUri: ODataUri
    const entityDataModel: EntityDataModel
    /** Resolved once, at construction; no method can change it. */
    const targetType: TargetType
    const generators: Generators

    /** Stores the collaborators and the already resolved target type. */
    constructor (oDataUri: ODataUri, entityDataModel: EntityDataModel, targetType: TargetType,
                 generators: Generators)
      ensures this.oDataUri == oDataUri && this.entityDataModel == entityDataModel
      ensures this.targetType == targetType && this.generators == generators
    {
      this.oDataUri := oDataUri;
      this.entityDataModel := entityDataModel;
      this.targetType := targetType;
      this.generators := generators;
    }

    /** Builds a writer for a request, resolving its target type from the URI
        and the model; there is no writer when the path resolves to nothing. */
    static method Create(oDataUri: ODataUri, entityDataModel: EntityDataModel,
                         resolveTargetType: (ODataUri, EntityDataModel) -> Option<TargetType>,
                         generators: Generators)
      returns (r: Result<PropertyWriter, Error>)
      ensures r.Failure? <==> resolveTargetType(oDataUri, entityDataModel).None?
      ensures r.Failure? ==> r.error == TargetTypeEmpty
      ensures r.Success? ==>
                fresh(r.value) &&
                r.value.oDataUri == oDataUri && r.value.entityDataModel == entityDataModel &&
                r.value.targetType == resolveTargetType(oDataUri, entityDataModel).value &&
                r.value.generators == generators
    {
      var resolved := GetTargetType(resolveTargetType(oDataUri, entityDataModel));
      if resolved.Failure? {
        return Failure(resolved.error);
      }
      var w := new PropertyWriter(oDataUri, entityDataModel, resolved.value, generators);
      return Success(w);
    }

    /** The declared type of the target, looked up by name on every call;
        `None` (a null type) when the model has no type of that name. */
    function GetTypeFromODataUri(): (t: Option<Type>)
      ensures t.Some? <==> targetType.typeName in entityDataModel.types
      ensures t.Some? ==> t.value == entityDataModel.types[targetType.typeName]
    {
      TypeByName(entityDataModel, targetType.typeName)
    }

    /** Writes a non-null value: validates it against the declared type, then
        picks the generator by the declared type's meta-type. */
    method MakePropertyString(data: Value) returns (s: Result<string, Error>)
      ensures var declared := GetTypeFromODataUri();
              var v := ValidateRequest(entityDataModel, targetType, declared, data);
              (v.Fail? ==> s == Failure(v.error)) &&
              (v.Pass? && declared.None? ==> s == Failure(NullType)) &&
              (v.Pass? && declared.Some? && declared.value.metaType == Primitive ==>
                 s == generators.primitiveProperty(data, declared.value)) &&
              (v.Pass? && declared.Some? && declared.value.metaType == Complex ==>
                 s == generators.complexProperty(data, declared.value)) &&
              (v.Pass? && declared.Some? && declared.value.metaType == Other ==>
                 s == Failure(UnhandledType(declared.value)))
    {
      var propertyXml: Result<string, Error>;
      var t := GetTypeFromODataUri();
      var validation := ValidateRequest(entityDataModel, targetType, t, data);
      if validation.Fail? {
        return Failure(validation.error);
      }
      if t.None? {
        // the switch dereferences the null type
        return Failure(NullType);
      }
      match t.value.metaType {
        case Primitive =>
          propertyXml := generators.primitiveProperty(data, t.value);
        case Complex =>
          propertyXml := generators.complexProperty(data, t.value);
        case Other =>
          var failed := DefaultHandling(t.value);
          propertyXml := Failure(failed.error);
      }
      return propertyXml;
    }

    /** Writes a property value, `None` standing for null. */
    method GetPropertyAsString(data: Option<Value>) returns (s: Result<string, Error>)
      // null: the null generator's output, whatever the target type and model
      ensures data.None? ==> s == generators.nullProperty
      // a failed validation fails the call with that error and generates nothing
      ensures data.Some? && ValidateRequest(entityDataModel, targetType, GetTypeFromODataUri(), data.value).Fail? ==>
                s == Failure(ValidateRequest(entityDataModel, targetType, GetTypeFromODataUri(), data.value).error)
      // a scalar for a collection target, or a non-empty list for a scalar target
      ensures data.Some? && !IsEmptyCollection(data.value) && IsCollection(data.value) != targetType.isCollection ==>
                s == Failure(TypeMismatch(GetTypeFromODataUri()))
      // a well-formed value that does not conform is a type mismatch or an unregistered class
      ensures data.Some? && WellFormed(entityDataModel, data.value) &&
              !Conforms(entityDataModel, targetType, GetTypeFromODataUri(), data.value) ==>
                s == Failure(TypeMismatch(GetTypeFromODataUri())) || (s.Failure? && s.error.NoTypeForClass?)
      // a value that passes (every empty list does, and every well-formed conforming value)
      // goes to the generator of the declared type's meta-type
      ensures data.Some? &&
              (ValidateRequest(entityDataModel, targetType, GetTypeFromODataUri(), data.value).Pass? ||
               IsEmptyCollection(data.value) ||
               (WellFormed(entityDataModel, data.value) &&
                Conforms(entityDataModel, targetType, GetTypeFromODataUri(), data.value))) ==>
                var declared := GetTypeFromODataUri();
                (declared.None? ==> s == Failure(NullType)) &&
                (declared.Some? && declared.value.metaType == Primitive ==>
                   s == generators.primitiveProperty(data.value, declared.value)) &&
                (declared.Some? && declared.value.metaType == Complex ==>
                   s == generators.complexProperty(data.value, declared.value)) &&
                (declared.Some? && declared.value.metaType == Other ==>
                   s == Failure(UnhandledType(declared.value)))
      // no string is ever produced for a declared type without a generator
      ensures data.Some? && GetTypeFromODataUri().Some? && GetTypeFromODataUri().value.metaType == Other ==>
                s.Failure?
    {
      if data.Some? {
        if WellFormed(entityDataModel, data.value) {
          ValidationIsConformance(entityDataModel, targetType, GetTypeFromODataUri(), data.value);
        }
        s := MakePropertyString(data.value);
      } else {
        s := generators.nullProperty;
      }
    }
  }
}
