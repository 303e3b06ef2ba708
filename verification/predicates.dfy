/** The boolean predicates the expectation methods delegate to: null-safe equality,
    and the text and validity tests of `StringUtils` and `ValidatableUtils`. Those two
    helper classes are not part of this model; their predicates are defined here the
    way the `ThrowIf` test vectors pin them down. */
module Predicates {
  import opened Lang

  /** An object exposing the `Validatable` capability, represented by the answer its
      `isValid()` query gives. */
  datatype Validatable = Validatable(isValid: bool)

  /** Null-safe equality: two nulls are equal, null never equals an object, and two
      objects are equal as `expected.equals(actual)` says. */
  function SafeEqual(eq: (Obj, Obj) -> bool, expected: Value, actual: Value): (r: bool)
    ensures expected.Null? || actual.Null? ==> (r <==> expected.Null? && actual.Null?)
    ensures expected.Ref? && actual.Ref? ==> (r <==> eq(expected.obj, actual.obj))
  {
    || (expected.Null? && actual.Null?)
    || (expected.Ref? && actual.Ref? && eq(expected.obj, actual.obj))
  }

  /** The Latin-1 characters `Character.isWhitespace` accepts. */
  predicate IsWhiteSpace(c: char) {
    || c == ' ' || c == '\t' || c == '\n' || c == '\U{B}' || c == '\U{C}' || c == '\r'
    || c == '\U{1C}' || c == '\U{1D}' || c == '\U{1E}' || c == '\U{1F}'
  }

  // ---- texts (CharSequence, possibly null) ----

  predicate IsNullOrEmpty(s: Option<string>) {
    s.None? || |s.value| == 0
  }

  predicate IsNotEmpty(s: Option<string>) {
    !IsNullOrEmpty(s)
  }

  predicate IsNullOrWhiteSpace(s: Option<string>) {
    s.None? || forall i :: 0 <= i < |s.value| ==> IsWhiteSpace(s.value[i])
  }

  predicate IsNotWhiteSpace(s: Option<string>) {
    !IsNullOrWhiteSpace(s)
  }

  // ---- arrays of texts (CharSequence[], possibly null) ----

  /** A null array, an empty array, or an array with a null or empty element. */
  predicate IsNullOrEmptyArray(values: Option<seq<Option<string>>>) {
    || values.None?
    || |values.value| == 0
    || exists i :: 0 <= i < |values.value| && IsNullOrEmpty(values.value[i])
  }

  predicate IsNotEmptyArray(values: Option<seq<Option<string>>>) {
    !IsNullOrEmptyArray(values)
  }

  /** A null array, an empty array, or an array with a null or blank element. */
  predicate IsNullOrWhiteSpaceArray(values: Option<seq<Option<string>>>) {
    || values.None?
    || |values.value| == 0
    || exists i :: 0 <= i < |values.value| && IsNullOrWhiteSpace(values.value[i])
  }

  predicate IsNotWhiteSpaceArray(values: Option<seq<Option<string>>>) {
    !IsNullOrWhiteSpaceArray(values)
  }

  // ---- validatable objects (possibly null); null is neither valid nor invalid ----

  predicate IsValid(obj: Option<Validatable>) {
    obj.Some? && obj.value.isValid
  }

  predicate IsNotValid(obj: Option<Validatable>) {
    obj.Some? && !obj.value.isValid
  }

  predicate IsNullOrValid(obj: Option<Validatable>) {
    obj.None? || obj.value.isValid
  }

  predicate IsNullOrNotValid(obj: Option<Validatable>) {
    obj.None? || !obj.value.isValid
  }

  // ---- arrays of validatable objects: every element passes (vacuous on []) ----

  predicate AllValid(objects: seq<Option<Validatable>>) {
    forall i :: 0 <= i < |objects| ==> IsValid(objects[i])
  }

  predicate AllNotValid(objects: seq<Option<Validatable>>) {
    forall i :: 0 <= i < |objects| ==> IsNotValid(objects[i])
  }

  predicate AllNullOrValid(objects: seq<Option<Validatable>>) {
    forall i :: 0 <= i < |objects| ==> IsNullOrValid(objects[i])
  }

  predicate AllNullOrNotValid(objects: seq<Option<Validatable>>) {
    forall i :: 0 <= i < |objects| ==> IsNullOrNotValid(objects[i])
  }

  // ---- properties of the catalog ----

  /** Null-safe equality inherits reflexivity on objects from `equals`, and treats
      null as equal to itself. */
  lemma SafeEqualReflexive(eq: (Obj, Obj) -> bool, v: Value)
    requires forall o :: eq(o, o)
    ensures SafeEqual(eq, v, v)
  {
    if v.Ref? {
      assert eq(v.obj, v.obj);
    }
  }

  /** Null-safe equality is symmetric whenever `equals` is. */
  lemma SafeEqualSymmetric(eq: (Obj, Obj) -> bool, a: Value, b: Value)
    requires forall x, y :: eq(x, y) == eq(y, x)
    ensures SafeEqual(eq, a, b) == SafeEqual(eq, b, a)
  {
    if a.Ref? && b.Ref? {
      assert eq(a.obj, b.obj) == eq(b.obj, a.obj);
    }
  }

  /** Identical references are equal (for a reflexive `equals`); the converse fails. */
  lemma SameImpliesSafeEqual(eq: (Obj, Obj) -> bool, a: Value, b: Value)
    requires forall o :: eq(o, o)
    requires SameHeap(a, b)
    ensures Same(a, b) ==> SafeEqual(eq, a, b)
  {
    if Same(a, b) && a.Ref? {
      assert eq(a.obj, a.obj);
    }
  }
}
