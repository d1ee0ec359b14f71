/** The pure half of the property writer: recognising collections, reading a
    value's registered type, and the check that a value matches the type
    declared for the request path. */
module PropertyValidation {
  import opened Wrappers
  import opened Edm

  /** Whether the value is a list (`data instanceof List`). */
  function IsCollection(data: Value): (r: bool)
    ensures r <==> data.ListOf?
  {
    data.ListOf?
  }

  /** Whether the value is a list without elements. */
  function IsEmptyCollection(data: Value): (r: bool)
    ensures r ==> IsCollection(data)
    ensures r <==> data == ListOf([])
  {
    IsCollection(data) && |data.items| == 0
  }

  /** The registered type of a value; for a list, that of its first element.
      An empty list has no element to inspect and fails. */
  function GetType(edm: EntityDataModel, data: Value): (r: Result<Type, Error>)
    ensures IsEmptyCollection(data) ==> r == Failure(EmptyCollection)
    ensures data.Scalar? ==> r == GetAndCheckType(edm, data.obj.tag)
    ensures data.ListOf? && data.items != [] ==> r == GetAndCheckType(edm, data.items[0].tag)
  {
    if IsEmptyCollection(data) then
      Failure(EmptyCollection)
    else if IsCollection(data) then
      GetAndCheckType(edm, data.items[0].tag)
    else
      GetAndCheckType(edm, data.obj.tag)
  }

  /** The boolean formula `isEmptyCollection(data) || !(isCollection(data) ^
      targetType.isCollection()) && getType(data).equals(type)`, evaluated left
      to right with short-circuiting; `getType` may throw, so the verdict is a
      `Result`. */
  function AreValidTypesToProceed(edm: EntityDataModel, targetType: TargetType, declared: Option<Type>, data: Value)
    : (r: Result<bool, Error>)
    ensures IsEmptyCollection(data) ==> r == Success(true)
    ensures !IsEmptyCollection(data) && IsCollection(data) != targetType.isCollection ==> r == Success(false)
    ensures !IsEmptyCollection(data) && IsCollection(data) == targetType.isCollection ==>
              (r.Failure? <==> GetType(edm, data).Failure?) &&
              (r == Success(true) <==> GetType(edm, data).Success? && declared == Some(GetType(edm, data).value))
    ensures r.Failure? ==> r.error.NoTypeForClass?
  {
    if IsEmptyCollection(data) then
      Success(true)
    else if !(IsCollection(data) != targetType.isCollection) then
      match GetType(edm, data)
      case Failure(e) => Failure(e)
      case Success(t) => Success(Some(t) == declared)
    else
      Success(false)
  }

  /** Throws `TypeMismatch` when the formula is false and passes on any error
      the formula raised. */
  function ValidateRequest(edm: EntityDataModel, targetType: TargetType, declared: Option<Type>, data: Value)
    : (o: Outcome<Error>)
    ensures o.Pass? <==> AreValidTypesToProceed(edm, targetType, declared, data) == Success(true)
    ensures AreValidTypesToProceed(edm, targetType, declared, data) == Success(false) ==>
              o == Fail(TypeMismatch(declared))
    ensures AreValidTypesToProceed(edm, targetType, declared, data).Failure? ==>
              o == Fail(AreValidTypesToProceed(edm, targetType, declared, data).error)
    ensures o != Fail(EmptyCollection)
  {
    match AreValidTypesToProceed(edm, targetType, declared, data)
    case Failure(e) => Fail(e)
    case Success(ok) => if ok then Pass else Fail(TypeMismatch(declared))
  }

  /** A cardinality mismatch is decided without the registry: the verdict is
      the same whatever classes the model registers. */
  lemma CardinalityMismatchIgnoresRegistry(edm1: EntityDataModel, edm2: EntityDataModel, targetType: TargetType,
                                           declared: Option<Type>, data: Value)
    requires !IsEmptyCollection(data) && IsCollection(data) != targetType.isCollection
    ensures ValidateRequest(edm1, targetType, declared, data) == ValidateRequest(edm2, targetType, declared, data)
    ensures ValidateRequest(edm1, targetType, declared, data) == Fail(TypeMismatch(declared))
  {
  }

  // ---------------------------------------------------------------------
  // What validation means for the values the writer expects.

  /** Every element of the list is registered with the same type (or every
      element is unregistered): the homogeneity the writer relies on when it
      inspects only the first element. */
  ghost predicate Homogeneous(edm: EntityDataModel, items: seq<Instance>)
  {
    forall i, j :: 0 <= i < |items| && 0 <= j < |items| ==>
      ClassType(edm, items[i].tag) == ClassType(edm, items[j].tag)
  }

  /** A scalar, or a homogeneous list. */
  ghost predicate WellFormed(edm: EntityDataModel, data: Value)
  {
    data.ListOf? ==> Homogeneous(edm, data.items)
  }

  /** Every element of the list is registered with type `t`. */
  predicate AllOfType(edm: EntityDataModel, items: seq<Instance>, t: Type)
    decreases |items|
  {
    items == [] || (ClassType(edm, items[0].tag) == Some(t) && AllOfType(edm, items[1..], t))
  }

  /** The reference meaning of "the value matches the declared type": a scalar
      matches a non-collection target whose declared type is its class's type;
      a list matches a collection target whose declared type is the type of
      every element; an empty list matches whatever is declared. */
  ghost predicate Conforms(edm: EntityDataModel, targetType: TargetType, declared: Option<Type>, data: Value)
  {
    match data
    case Scalar(o) => !targetType.isCollection && declared.Some? && ClassType(edm, o.tag) == declared
    case ListOf(items) =>
      items == [] || (targetType.isCollection && declared.Some? && AllOfType(edm, items, declared.value))
  }

  /** If every element from index `k` on has type `t`, so does the suffix. */
  lemma {:induction false} AllOfTypeSuffix(edm: EntityDataModel, items: seq<Instance>, t: Type, k: nat)
    requires k <= |items|
    requires forall i :: k <= i < |items| ==> ClassType(edm, items[i].tag) == Some(t)
    ensures AllOfType(edm, items[k..], t)
    decreases |items| - k
  {
    if k < |items| {
      AllOfTypeSuffix(edm, items, t, k + 1);
      assert items[k..][1..] == items[k + 1..];
    }
  }

  /** On a homogeneous non-empty list, the type of the first element is the
      type of every element. */
  lemma {:induction false} FirstElementDecides(edm: EntityDataModel, items: seq<Instance>, t: Type)
    requires items != [] && Homogeneous(edm, items)
    ensures ClassType(edm, items[0].tag) == Some(t) <==> AllOfType(edm, items, t)
  {
    if ClassType(edm, items[0].tag) == Some(t) {
      forall i | 0 <= i < |items| ensures ClassType(edm, items[i].tag) == Some(t) {
        assert ClassType(edm, items[i].tag) == ClassType(edm, items[0].tag);
      }
      AllOfTypeSuffix(edm, items, t, 0);
      assert items[0..] == items;
    }
  }

  /** For well-formed values, validation passes exactly when the value
      conforms to the declared type. */
  lemma {:induction false} ValidationIsConformance(edm: EntityDataModel, targetType: TargetType,
                                                   declared: Option<Type>, data: Value)
    requires WellFormed(edm, data)
    ensures ValidateRequest(edm, targetType, declared, data).Pass? <==> Conforms(edm, targetType, declared, data)
  {
    match data
    case Scalar(o) =>
    case ListOf(items) =>
      if items != [] && targetType.isCollection && declared.Some? {
        FirstElementDecides(edm, items, declared.value);
      }
  }

  /** Homogeneity is what makes the first-element check sound: a list whose
      first element has the declared type passes even when a later one does
      not. */
  lemma MixedListPasses(str: Type, num: Type)
    requires str != num
    ensures var edm := EntityDataModel(map[], map["S" := str, "N" := num]);
            var data := ListOf([Instance("S", "a"), Instance("N", "1")]);
            ValidateRequest(edm, TargetType(str.name, true), Some(str), data) == Pass &&
            !Conforms(edm, TargetType(str.name, true), Some(str), data)
  {
    var edm := EntityDataModel(map[], map["S" := str, "N" := num]);
    var items := [Instance("S", "a"), Instance("N", "1")];
    assert items[1..][0].tag == "N";
    assert !AllOfType(edm, items[1..], str);
  }
}
