/** The test vectors of `ThrowIfTests`, each test method stated as a lemma: an
    `expectThrowsException` call becomes `Raised?` with a `ValidationException`, an
    `expectNotThrowsException` call becomes `Ok?`. */
module ThrowIfTests {
  import opened Lang
  import P = Predicates
  import opened ThrowIf

  /** `equals` of `Integer` and `String`: same class and same value. */
  predicate ValueEquals(a: Obj, b: Obj) {
    a.className == b.className && a.text == b.text
  }

  function Integer(id: nat, text: string): Value {
    Ref(Obj(id, "java.lang.Integer", "Integer", text))
  }

  const One: Value := Integer(1, "1")
  const Two: Value := Integer(2, "2")
  const Str: Value := JavaString(3, "value")
  const NilStr: Value := Null

  const ValueText: Option<string> := Some("value")
  const OtherText: Option<string> := Some("otherValue")
  const EmptyText: Option<string> := Some("")
  const BlankText: Option<string> := Some(" \t\r\n")

  const ValidObject: Option<P.Validatable> := Some(P.Validatable(true))
  const NotValidObject: Option<P.Validatable> := Some(P.Validatable(false))

  lemma TestThrowIfTrue()
    ensures ThrowIfTrue(2 > 1) == Raised(Failure)
    ensures ThrowIfTrue(1 > 2).Ok?
  {
  }

  lemma TestThrowIfFalse()
    ensures ThrowIfFalse(1 > 2) == Raised(Failure)
    ensures ThrowIfFalse(2 > 1).Ok?
  {
  }

  lemma TestThrowIfEqual()
    ensures ThrowIfEqual(ValueEquals, Two, Two) == Raised(Failure)
    ensures ThrowIfEqual(ValueEquals, Str, Str) == Raised(Failure)
    ensures ThrowIfEqual(ValueEquals, One, Two).Ok?
    ensures ThrowIfEqual(ValueEquals, Str, NilStr).Ok?
  {
  }

  lemma TestThrowIfNotEqual()
    ensures ThrowIfNotEqual(ValueEquals, One, Two) == Raised(Failure)
    ensures ThrowIfNotEqual(ValueEquals, Str, NilStr) == Raised(Failure)
    ensures ThrowIfNotEqual(ValueEquals, Two, Two).Ok?
    ensures ThrowIfNotEqual(ValueEquals, Str, Str).Ok?
  {
  }

  lemma TestThrowIfNull()
    ensures ThrowIfNull(Null) == Raised(Failure)
    ensures ThrowIfNull(Two).Ok?
  {
  }

  lemma TestThrowIfNotNull()
    ensures ThrowIfNotNull(Two) == Raised(Failure)
    ensures ThrowIfNotNull(Null).Ok?
  {
  }

  lemma TestThrowIfNullOrEmpty()
    ensures ThrowIfNullOrEmpty(None) == Raised(Failure)
    ensures ThrowIfNullOrEmpty(EmptyText) == Raised(Failure)
    ensures ThrowIfNullOrEmpty(ValueText).Ok?
  {
  }

  lemma TestThrowIfNullOrEmptyArray()
    ensures ThrowIfNullOrEmptyArray(Some([EmptyText])) == Raised(Failure)
    ensures ThrowIfNullOrEmptyArray(Some([ValueText, None])) == Raised(Failure)
    ensures ThrowIfNullOrEmptyArray(Some([ValueText, EmptyText])) == Raised(Failure)
    ensures ThrowIfNullOrEmptyArray(None) == Raised(Failure)
    ensures ThrowIfNullOrEmptyArray(Some([])) == Raised(Failure)
    ensures ThrowIfNullOrEmptyArray(Some([ValueText, OtherText])).Ok?
  {
    assert P.IsNullOrEmpty([EmptyText][0]);
    assert P.IsNullOrEmpty([ValueText, None][1]);
    assert P.IsNullOrEmpty([ValueText, EmptyText][1]);
  }

  lemma TestThrowIfNullOrWhiteSpace()
    ensures ThrowIfNullOrWhiteSpace(None) == Raised(Failure)
    ensures ThrowIfNullOrWhiteSpace(EmptyText) == Raised(Failure)
    ensures ThrowIfNullOrWhiteSpace(BlankText) == Raised(Failure)
    ensures ThrowIfNullOrWhiteSpace(ValueText).Ok?
  {
    assert !P.IsWhiteSpace(ValueText.value[0]);
  }

  lemma TestThrowIfNullOrWhiteSpaceArray()
    ensures ThrowIfNullOrWhiteSpaceArray(Some([BlankText])) == Raised(Failure)
    ensures ThrowIfNullOrWhiteSpaceArray(Some([ValueText, None])) == Raised(Failure)
    ensures ThrowIfNullOrWhiteSpaceArray(Some([ValueText, EmptyText])) == Raised(Failure)
    ensures ThrowIfNullOrWhiteSpaceArray(Some([ValueText, BlankText])) == Raised(Failure)
    ensures ThrowIfNullOrWhiteSpaceArray(None) == Raised(Failure)
    ensures ThrowIfNullOrWhiteSpaceArray(Some([])) == Raised(Failure)
    ensures ThrowIfNullOrWhiteSpaceArray(Some([ValueText, OtherText])).Ok?
  {
    assert P.IsNullOrWhiteSpace([BlankText][0]);
    assert P.IsNullOrWhiteSpace([ValueText, None][1]);
    assert P.IsNullOrWhiteSpace([ValueText, EmptyText][1]);
    assert P.IsNullOrWhiteSpace([ValueText, BlankText][1]);
    var values := [ValueText, OtherText];
    assert !P.IsWhiteSpace(values[0].value[0]) && !P.IsWhiteSpace(values[1].value[0]);
  }

  lemma TestThrowIfNotValid()
    ensures ThrowIfNotValid(NotValidObject) == Raised(Failure)
    ensures ThrowIfNotValid(ValidObject).Ok?
    ensures ThrowIfNotValid(None).Ok?
  {
  }

  lemma TestThrowIfNotValidArray()
    ensures ThrowIfNotValidArray(Some([NotValidObject])) == Raised(Failure)
    ensures ThrowIfNotValidArray(None) == Raised(Failure)
    ensures ThrowIfNotValidArray(Some([ValidObject, None])).Ok?
    ensures ThrowIfNotValidArray(Some([])).Ok?
  {
    assert !P.IsNullOrValid([NotValidObject][0]);
  }

  lemma TestThrowIfNullOrNotValid()
    ensures ThrowIfNullOrNotValid(None) == Raised(Failure)
    ensures ThrowIfNullOrNotValid(NotValidObject) == Raised(Failure)
    ensures ThrowIfNullOrNotValid(ValidObject).Ok?
  {
  }

  lemma TestThrowIfNullOrNotValidArray()
    ensures ThrowIfNullOrNotValidArray(Some([NotValidObject])) == Raised(Failure)
    ensures ThrowIfNullOrNotValidArray(Some([ValidObject, None])) == Raised(Failure)
    ensures ThrowIfNullOrNotValidArray(Some([ValidObject, NotValidObject])) == Raised(Failure)
    ensures ThrowIfNullOrNotValidArray(None) == Raised(Failure)
    ensures ThrowIfNullOrNotValidArray(Some([ValidObject])).Ok?
    ensures ThrowIfNullOrNotValidArray(Some([])).Ok?
  {
    assert !P.IsValid([NotValidObject][0]);
    assert !P.IsValid([ValidObject, None][1]);
    assert !P.IsValid([ValidObject, NotValidObject][1]);
  }
}
