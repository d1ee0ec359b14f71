/** Worked requests against a small model: what a client of the writer can
    conclude from its contracts alone. */
module Scenarios {
  import opened Wrappers
  import opened Edm
  import opened PropertyWriting

  const EdmString := Type("Edm.String", Primitive)
  const Address := Type("Model.Address", Complex)
  const OtherComplex := Type("Model.OtherComplex", Complex)

  /** A model with a string type and two complex types, where the class
      `Address` is (wrongly) registered as the other complex type. */
  const Registry := EntityDataModel(
    map["Edm.String" := EdmString, "Model.Address" := Address, "Model.OtherComplex" := OtherComplex],
    map["java.lang.String" := EdmString, "Address" := OtherComplex])

  /** A writer for a request path that resolves to `targetType`, built by the
      writer's own construction. */
  method Resolved(oDataUri: ODataUri, targetType: TargetType, generators: Generators) returns (w: PropertyWriter)
    ensures w.oDataUri == oDataUri && w.entityDataModel == Registry
    ensures w.targetType == targetType && w.generators == generators
  {
    var r := PropertyWriter.Create(oDataUri, Registry,
                                   (u: ODataUri, m: EntityDataModel) => Some(targetType), generators);
    assert r.Success?;
    w := r.value;
  }

  /** The same value written twice through one writer gives the same result. */
  method RepeatedCallsAgree(w: PropertyWriter, data: Option<Value>)
    returns (first: Result<string, Error>, second: Result<string, Error>)
    ensures first == second
  {
    first := w.GetPropertyAsString(data);
    second := w.GetPropertyAsString(data);
  }

  /** A string for a single string-typed property goes to the primitive generator. */
  method ScalarString(generators: Generators) returns (s: Result<string, Error>)
    ensures s == generators.primitiveProperty(Scalar(Instance("java.lang.String", "CEO")), EdmString)
  {
    var w := Resolved(ODataUri("Customers('ALFKI')/ContactTitle"), TargetType("Edm.String", false), generators);
    s := w.GetPropertyAsString(Some(Scalar(Instance("java.lang.String", "CEO"))));
  }

  /** An empty list passes validation and is dispatched on the declared type. */
  method EmptyList(generators: Generators) returns (s: Result<string, Error>)
    ensures s == generators.complexProperty(ListOf([]), Address)
  {
    var w := Resolved(ODataUri("Customers('ALFKI')/Addresses"), TargetType("Model.Address", true), generators);
    s := w.GetPropertyAsString(Some(ListOf([])));
  }

  /** An empty list passes even where a single value is declared. */
  method EmptyListForScalar(generators: Generators) returns (s: Result<string, Error>)
    ensures s == generators.primitiveProperty(ListOf([]), EdmString)
  {
    var w := Resolved(ODataUri("Customers('ALFKI')/ContactTitle"), TargetType("Edm.String", false), generators);
    s := w.GetPropertyAsString(Some(ListOf([])));
  }

  /** A value registered under another complex type is a type mismatch. */
  method WrongComplexType(generators: Generators) returns (s: Result<string, Error>)
    ensures s == Failure(TypeMismatch(Some(Address)))
  {
    var w := Resolved(ODataUri("Customers('ALFKI')/Address"), TargetType("Model.Address", false), generators);
    s := w.GetPropertyAsString(Some(Scalar(Instance("Address", "Obere Str. 57"))));
  }

  /** A request path that resolves to nothing yields no writer. */
  method UnresolvablePath(generators: Generators) returns (r: Result<PropertyWriter, Error>)
    ensures r == Failure(TargetTypeEmpty)
  {
    r := PropertyWriter.Create(ODataUri("Customers('ALFKI')/NoSuchProperty"), Registry,
                               (u: ODataUri, m: EntityDataModel) => None, generators);
  }
}
