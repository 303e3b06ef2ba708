/** `util.ThrowIf`: the same predicates as `util.Expect` with the trigger inverted, raising
    a `ValidationException` when the named condition is present. The class is not part
    of this model; each method is defined here from the test vectors of `ThrowIfTests`,
    and the message it would carry is not modelled. */
module ThrowIf {
  import opened Lang
  import P = Predicates
  import E = Expect

  /** The throwable every `throwIf*` method raises. */
  const Failure: Throwable := Throwable(ValidationException, None, None)

  function Raise(trigger: bool): (r: Outcome)
    ensures r.Raised? <==> trigger
    ensures r.Raised? ==> r.error == Failure
  {
    if trigger then Raised(Failure) else Ok
  }

  function ThrowIfTrue(condition: bool): (r: Outcome)
    ensures r.Raised? <==> condition
  {
    Raise(condition)
  }

  function ThrowIfFalse(condition: bool): (r: Outcome)
    ensures r.Raised? <==> !condition
  {
    Raise(!condition)
  }

  function ThrowIfEqual(eq: (Obj, Obj) -> bool, a: Value, b: Value): (r: Outcome)
    ensures r.Raised? <==> P.SafeEqual(eq, a, b)
  {
    Raise(P.SafeEqual(eq, a, b))
  }

  function ThrowIfNotEqual(eq: (Obj, Obj) -> bool, a: Value, b: Value): (r: Outcome)
    ensures r.Raised? <==> !P.SafeEqual(eq, a, b)
  {
    Raise(!P.SafeEqual(eq, a, b))
  }

  function ThrowIfNull(v: Value): (r: Outcome)
    ensures r.Raised? <==> v.Null?
  {
    Raise(v.Null?)
  }

  function ThrowIfNotNull(v: Value): (r: Outcome)
    ensures r.Raised? <==> v.Ref?
  {
    Raise(v.Ref?)
  }

  function ThrowIfNullOrEmpty(s: Option<string>): (r: Outcome)
    ensures r.Raised? <==> s.None? || s.value == ""
  {
    Raise(P.IsNullOrEmpty(s))
  }

  /** Raises on a null array, an empty array, or a null or empty element. */
  function ThrowIfNullOrEmptyArray(values: Option<seq<Option<string>>>): (r: Outcome)
    ensures r.Raised? <==> P.IsNullOrEmptyArray(values)
  {
    Raise(P.IsNullOrEmptyArray(values))
  }

  function ThrowIfNullOrWhiteSpace(s: Option<string>): (r: Outcome)
    ensures r.Raised? <==> P.IsNullOrWhiteSpace(s)
  {
    Raise(P.IsNullOrWhiteSpace(s))
  }

  /** Raises on a null array, an empty array, or a null or blank element. */
  function ThrowIfNullOrWhiteSpaceArray(values: Option<seq<Option<string>>>): (r: Outcome)
    ensures r.Raised? <==> P.IsNullOrWhiteSpaceArray(values)
  {
    Raise(P.IsNullOrWhiteSpaceArray(values))
  }

  /** Raises only on a non-null invalid object. */
  function ThrowIfNotValid(obj: Option<P.Validatable>): (r: Outcome)
    ensures r.Raised? <==> obj.Some? && !obj.value.isValid
  {
    Raise(!P.IsNullOrValid(obj))
  }

  /** Raises on a null array or an invalid element; null elements and [] pass. */
  function ThrowIfNotValidArray(objects: Option<seq<Option<P.Validatable>>>): (r: Outcome)
    ensures r.Raised? <==> objects.None? || !P.AllNullOrValid(objects.value)
  {
    Raise(objects.None? || !P.AllNullOrValid(objects.value))
  }

  /** Raises on null or an invalid object. */
  function ThrowIfNullOrNotValid(obj: Option<P.Validatable>): (r: Outcome)
    ensures r.Raised? <==> obj.None? || !obj.value.isValid
  {
    Raise(!P.IsValid(obj))
  }

  /** Raises on a null array or a null or invalid element; [] passes. */
  function ThrowIfNullOrNotValidArray(objects: Option<seq<Option<P.Validatable>>>): (r: Outcome)
    ensures r.Raised? <==> objects.None? || !P.AllValid(objects.value)
  {
    Raise(objects.None? || !P.AllValid(objects.value))
  }

  /** Each `throwIf*` method raises exactly when the `expect*` method of opposite
      polarity raises: `throwIfX(v)` fails iff `expectNotX(v)` fails. Booleans,
      equality and nullness: */
  lemma ThrowIfMirrorsExpectValues(eq: (Obj, Obj) -> bool, c: bool, a: Value, b: Value, m: Option<string>)
    ensures ThrowIfTrue(c).Raised? <==> E.ExpectFalse(c, m).Raised?
    ensures ThrowIfFalse(c).Raised? <==> E.ExpectTrue(c, m).Raised?
    ensures ThrowIfEqual(eq, a, b).Raised? <==> E.ExpectNotEqual(eq, a, b, m).Raised?
    ensures ThrowIfNotEqual(eq, a, b).Raised? <==> E.ExpectEqual(eq, a, b, m).Raised?
    ensures ThrowIfNull(a).Raised? <==> E.ExpectNotNull(a, m).Raised?
    ensures ThrowIfNotNull(a).Raised? <==> E.ExpectNull(a, m).Raised?
  {
  }

  /** ... texts and arrays of texts: */
  lemma ThrowIfMirrorsExpectTexts(s: Option<string>, ss: seq<Option<string>>, m: Option<string>)
    ensures ThrowIfNullOrEmpty(s).Raised? <==> E.ExpectCondition(E.NotEmpty(s), m).Raised?
    ensures ThrowIfNullOrEmptyArray(Some(ss)).Raised? <==> E.ExpectCondition(E.NotEmptyArray(ss), m).Raised?
    ensures ThrowIfNullOrWhiteSpace(s).Raised? <==> E.ExpectCondition(E.NotWhiteSpace(s), m).Raised?
    ensures ThrowIfNullOrWhiteSpaceArray(Some(ss)).Raised?
            <==> E.ExpectCondition(E.NotWhiteSpaceArray(ss), m).Raised?
  {
  }

  /** ... validatable objects and arrays of them. */
  lemma ThrowIfMirrorsExpectValidity(o: Option<P.Validatable>, os: seq<Option<P.Validatable>>, m: Option<string>)
    ensures ThrowIfNotValid(o).Raised? <==> E.ExpectCondition(E.NullOrValid(o), m).Raised?
    ensures ThrowIfNotValidArray(Some(os)).Raised? <==> E.ExpectCondition(E.NullOrValidArray(os), m).Raised?
    ensures ThrowIfNullOrNotValid(o).Raised? <==> E.ExpectCondition(E.Valid(o), m).Raised?
    ensures ThrowIfNullOrNotValidArray(Some(os)).Raised? <==> E.ExpectCondition(E.ValidArray(os), m).Raised?
  {
  }

  /** The array forms differ on []: the null-or-empty and null-or-blank checks raise on
      an empty array, while the validity checks pass it. */
  lemma EmptyArrayAsymmetry()
    ensures ThrowIfNullOrEmptyArray(Some([])).Raised?
    ensures ThrowIfNullOrWhiteSpaceArray(Some([])).Raised?
    ensures ThrowIfNotValidArray(Some([])).Ok?
    ensures ThrowIfNullOrNotValidArray(Some([])).Ok?
  {
  }
}
