/** `util.Expect`: expectation methods that return normally when their condition
    holds and otherwise raise an `ExpectationError` (or, for two unequal strings, a
    `ComparisonFailure`) whose message is the caller's or a formatted description.
    Every message-less overload calls its message overload with null, so only the
    latter appear here, with `None` standing for the null message. */
module Expect {
  import opened Lang
  import P = Predicates

  // ---- raising ----

  /** `throwError`: an `ExpectationError` with no detail message when `message` is null. */
  function ThrowError(message: Option<string>): (r: Outcome)
    ensures r.Raised? && r.error == Throwable(ExpectationError, message, None)
  {
    Raised(Throwable(ExpectationError, message, None))
  }

  // ---- message formatting ----

  /** The prefix `format` puts before its text: the message and a space, but only
      for a non-null, non-empty message. */
  function FormatPrefix(message: Option<string>): (r: string)
    ensures message.Some? && message.value != "" ==> r == message.value + " "
    ensures message.None? || message.value == "" ==> r == ""
  {
    if message.Some? && message.value != "" then message.value + " " else ""
  }

  /** `formatClassAndValue`: the class name (or "null") followed by the rendering in angle brackets. */
  function FormatClassAndValue(value: Value, rendering: string): (r: string)
    ensures value.Null? ==> r == "null" + "<" + rendering + ">"
    ensures value.Ref? ==> r == value.obj.className + "<" + rendering + ">"
  {
    ClassName(value) + "<" + rendering + ">"
  }

  /** `format` without its prefix: the two renderings when they differ, and each
      rendering behind its class name when they coincide. */
  function FormatBody(expected: Value, actual: Value): string {
    var expectedString := ValueOf(expected);
    var actualString := ValueOf(actual);
    if expectedString == actualString then
      "expected: " + FormatClassAndValue(expected, expectedString)
      + " but was: " + FormatClassAndValue(actual, actualString)
    else
      "expected:<" + expectedString + "> but was:<" + actualString + ">"
  }

  /** `format`: describes an expected and an actual value behind the caller's message.
      When their renderings differ, the renderings alone are shown; when they coincide,
      each is preceded by its class name so that the two can still be told apart. */
  function Format(message: Option<string>, expected: Value, actual: Value): (r: string)
    ensures ValueOf(expected) != ValueOf(actual) ==>
      r == FormatPrefix(message) + ("expected:<" + ValueOf(expected) + "> but was:<" + ValueOf(actual) + ">")
    ensures ValueOf(expected) == ValueOf(actual) ==>
      r == FormatPrefix(message)
           + ("expected: " + FormatClassAndValue(expected, ValueOf(expected))
              + " but was: " + FormatClassAndValue(actual, ValueOf(actual)))
  {
    FormatPrefix(message) + FormatBody(expected, actual)
  }

  /** `x + t == y + t` only when `x == y`. */
  lemma CancelRight(x: string, y: string, t: string)
    requires x + t == y + t
    ensures x == y
  {
    assert |x| == |y|;
    assert x == (x + t)[..|x|];
    assert y == (y + t)[..|y|];
  }

  /** When the renderings coincide, `format` shows each operand as its class name and
      rendering; those two pieces are equal exactly when the class names are. So two
      operands that differ in class or in rendering are never described identically. */
  lemma {:induction false} FormatDisambiguates(expected: Value, actual: Value)
    requires ValueOf(expected) == ValueOf(actual)
    ensures FormatClassAndValue(expected, ValueOf(expected)) == FormatClassAndValue(actual, ValueOf(actual))
            <==> ClassName(expected) == ClassName(actual)
  {
    var s := ValueOf(expected);
    var ce, ca := ClassName(expected), ClassName(actual);
    if ce + "<" + s + ">" == ca + "<" + s + ">" {
      CancelRight(ce + "<" + s, ca + "<" + s, ">");
      CancelRight(ce + "<", ca + "<", s);
      CancelRight(ce, ca, "<");
    }
  }

  /** The caller's message only ever prefixes the description: a null or empty
      message adds nothing, any other message adds itself and one space. */
  lemma FormatMessageIsPrefix(message: Option<string>, expected: Value, actual: Value)
    ensures message.None? || message.value == "" ==>
      Format(message, expected, actual) == Format(None, expected, actual)
    ensures message.Some? && message.value != "" ==>
      Format(message, expected, actual) == message.value + " " + Format(None, expected, actual)
  {
    var body := FormatBody(expected, actual);
    assert Format(None, expected, actual) == "" + body;
    assert "" + body == body;
  }

  /** `failNotEqual`: an `ExpectationError` carrying the `format` description. */
  function FailNotEqual(expected: Value, actual: Value, message: Option<string>): (r: Outcome)
    ensures r.Raised? && r.error == Throwable(ExpectationError, Some(Format(message, expected, actual)), None)
  {
    ThrowError(Some(Format(message, expected, actual)))
  }

  /** `failEqual`: a caller's message replaces the default "Values should be different"
      text; either way the message ends with the actual value's rendering. */
  function FailEqual(message: Option<string>, actual: Value): (r: Outcome)
    ensures r.Raised? && r.error.kind == ExpectationError && r.error.cause.None? && r.error.message.Some?
    ensures message.None? ==>
      r.error.message.value == "Values should be different. " + "Actual: " + ValueOf(actual)
    ensures message.Some? ==>
      r.error.message.value == message.value + ". " + "Actual: " + ValueOf(actual)
  {
    var formatted := if message.Some? then message.value + ". " else "Values should be different. ";
    ThrowError(Some(formatted + "Actual: " + ValueOf(actual)))
  }

  /** The prefix the `fail*` helpers put before their text: any non-null message,
      even an empty one, followed by a space. */
  function FailPrefix(message: Option<string>): (r: string)
    ensures message.Some? ==> r == message.value + " "
    ensures message.None? ==> r == ""
  {
    if message.Some? then message.value + " " else ""
  }

  /** `failSame`: "[message ]expected not same". */
  function FailSame(message: Option<string>): (r: Outcome)
    ensures r.Raised? && r.error.kind == ExpectationError && r.error.cause.None? && r.error.message.Some?
    ensures message.None? ==> r.error.message.value == "" + "expected not same"
    ensures message.Some? ==> r.error.message.value == message.value + " " + "expected not same"
  {
    ThrowError(Some(FailPrefix(message) + "expected not same"))
  }

  /** `failNotSame`: "[message ]expected same:<e> was not:<a>". */
  function FailNotSame(message: Option<string>, expected: Value, actual: Value): (r: Outcome)
    ensures r.Raised? && r.error.kind == ExpectationError && r.error.cause.None? && r.error.message.Some?
    ensures r.error.message.value
            == FailPrefix(message) + "expected same:<" + ValueOf(expected) + "> was not:<" + ValueOf(actual) + ">"
  {
    ThrowError(Some(FailPrefix(message) + "expected same:<" + ValueOf(expected) + "> was not:<" + ValueOf(actual) + ">"))
  }

  /** `failNotNull`: "[message ]expected null, but was:<a>". */
  function FailNotNull(message: Option<string>, actual: Value): (r: Outcome)
    ensures r.Raised? && r.error.kind == ExpectationError && r.error.cause.None? && r.error.message.Some?
    ensures r.error.message.value == FailPrefix(message) + "expected null, but was:<" + ValueOf(actual) + ">"
  {
    ThrowError(Some(FailPrefix(message) + "expected null, but was:<" + ValueOf(actual) + ">"))
  }

  /** An empty caller message is dropped by `format` but kept, with its space, by the
      `fail*` helpers: the two message conventions disagree on "". */
  lemma EmptyMessageConventions(expected: Value, actual: Value)
    ensures Format(Some(""), expected, actual) == Format(None, expected, actual)
    ensures FailPrefix(Some("")) == " " && FormatPrefix(Some("")) == ""
  {
    FormatMessageIsPrefix(Some(""), expected, actual);
  }

  // ---- boolean checks ----

  /** `expectTrue`: returns iff the condition holds, otherwise raises an
      `ExpectationError` carrying exactly the caller's message (none for null). */
  function ExpectTrue(condition: bool, message: Option<string>): (r: Outcome)
    ensures r.Ok? <==> condition
    ensures r.Raised? ==> r.error == Throwable(ExpectationError, message, None)
  {
    if !condition then ThrowError(message) else Ok
  }

  /** `expectFalse`: `expectTrue` of the negated condition. */
  function ExpectFalse(condition: bool, message: Option<string>): (r: Outcome)
    ensures r.Ok? <==> !condition
    ensures r.Raised? ==> r.error == Throwable(ExpectationError, message, None)
  {
    ExpectTrue(!condition, message)
  }

  // ---- equality ----

  /** `expectEqual`: returns iff the operands are null-safe equal. Two unequal strings
      raise a `ComparisonFailure` carrying both strings and the message ("" for null);
      any other unequal pair raises an `ExpectationError` with the `format` description. */
  function ExpectEqual(eq: (Obj, Obj) -> bool, expected: Value, actual: Value, message: Option<string>): (r: Outcome)
    ensures r.Ok? <==> P.SafeEqual(eq, expected, actual)
    ensures r.Raised? && IsString(expected) && IsString(actual) ==>
      r.error == Throwable(ComparisonFailure(expected.obj.text, actual.obj.text),
                           Some(if message.None? then "" else message.value), None)
    ensures r.Raised? && !(IsString(expected) && IsString(actual)) ==>
      r.error == Throwable(ExpectationError, Some(Format(message, expected, actual)), None)
  {
    if P.SafeEqual(eq, expected, actual) then
      Ok
    else if IsString(expected) && IsString(actual) then
      var cleanMessage := if message.None? then "" else message.value;
      Raised(Throwable(ComparisonFailure(ValueOf(expected), ValueOf(actual)), Some(cleanMessage), None))
    else
      FailNotEqual(expected, actual, message)
  }

  /** `expectNotEqual`: raises iff the operands are null-safe equal, with the
      `failEqual` message naming the actual value. */
  function ExpectNotEqual(eq: (Obj, Obj) -> bool, unexpected: Value, actual: Value, message: Option<string>): (r: Outcome)
    ensures r.Raised? <==> P.SafeEqual(eq, unexpected, actual)
    ensures r.Raised? ==> r == FailEqual(message, actual)
  {
    if P.SafeEqual(eq, unexpected, actual) then FailEqual(message, actual) else Ok
  }

  /** Exactly one of `expectEqual` and `expectNotEqual` raises on any pair. */
  lemma EqualNotEqualComplement(eq: (Obj, Obj) -> bool, a: Value, b: Value, m1: Option<string>, m2: Option<string>)
    ensures ExpectEqual(eq, a, b, m1).Ok? <==> ExpectNotEqual(eq, a, b, m2).Raised?
  {
  }

  /** With a reflexive `equals`, every value (null included) is expected-equal to itself
      and `expectNotEqual` of a value with itself always raises. */
  lemma EqualReflexive(eq: (Obj, Obj) -> bool, x: Value, message: Option<string>)
    requires forall o :: eq(o, o)
    ensures ExpectEqual(eq, x, x, message).Ok?
    ensures ExpectNotEqual(eq, x, x, message).Raised?
  {
    P.SafeEqualReflexive(eq, x);
  }

  // ---- identity ----

  /** `expectSame`: returns iff the references are identical (two nulls are). */
  function ExpectSame(expected: Value, actual: Value, message: Option<string>): (r: Outcome)
    ensures r.Ok? <==> Same(expected, actual)
    ensures r.Raised? ==> r == FailNotSame(message, expected, actual)
  {
    if Same(expected, actual) then Ok else FailNotSame(message, expected, actual)
  }

  /** `expectNotSame`: raises iff the references are identical, with "[m ]expected not same". */
  function ExpectNotSame(unexpected: Value, actual: Value, message: Option<string>): (r: Outcome)
    ensures r.Raised? <==> Same(unexpected, actual)
    ensures r.Raised? ==> r == FailSame(message)
  {
    if Same(unexpected, actual) then FailSame(message) else Ok
  }

  /** Every reference is the same as itself: `expectSame(a, a)` returns and
      `expectNotSame(a, a)` raises, null included. */
  lemma SameReflexive(a: Value, message: Option<string>)
    ensures ExpectSame(a, a, message).Ok?
    ensures ExpectNotSame(a, a, message).Raised?
  {
  }

  /** An identity check that passes implies the equality check passes (for a
      reflexive `equals` and references from one heap). */
  lemma SameImpliesEqual(eq: (Obj, Obj) -> bool, a: Value, b: Value, m1: Option<string>, m2: Option<string>)
    requires forall o :: eq(o, o)
    requires SameHeap(a, b)
    ensures ExpectSame(a, b, m1).Ok? ==> ExpectEqual(eq, a, b, m2).Ok?
  {
    P.SameImpliesSafeEqual(eq, a, b);
  }

  // ---- nullness ----

  /** `expectNull`: returns iff the value is null, else "[m ]expected null, but was:<a>". */
  function ExpectNull(obj: Value, message: Option<string>): (r: Outcome)
    ensures r.Ok? <==> obj.Null?
    ensures r.Raised? ==> r == FailNotNull(message, obj)
  {
    if obj.Null? then Ok else FailNotNull(message, obj)
  }

  /** `expectNotNull`: `expectTrue(obj != null, message)`. */
  function ExpectNotNull(obj: Value, message: Option<string>): (r: Outcome)
    ensures r.Raised? <==> obj.Null?
    ensures r.Raised? ==> r.error == Throwable(ExpectationError, message, None)
  {
    ExpectTrue(obj != Null, message)
  }

  // ---- checks delegated to StringUtils and ValidatableUtils ----

  /** The operand of each `expect*` method that only asks a `StringUtils` or
      `ValidatableUtils` predicate. Arrays are `@NonNull` in these overloads. */
  datatype Condition =
    | NullOrEmpty(text: Option<string>)
    | NullOrEmptyArray(texts: seq<Option<string>>)
    | NotEmpty(text: Option<string>)
    | NotEmptyArray(texts: seq<Option<string>>)
    | NullOrWhiteSpace(text: Option<string>)
    | NullOrWhiteSpaceArray(texts: seq<Option<string>>)
    | NotWhiteSpace(text: Option<string>)
    | NotWhiteSpaceArray(texts: seq<Option<string>>)
    | Valid(obj: Option<P.Validatable>)
    | ValidArray(objects: seq<Option<P.Validatable>>)
    | NotValid(obj: Option<P.Validatable>)
    | NotValidArray(objects: seq<Option<P.Validatable>>)
    | NullOrValid(obj: Option<P.Validatable>)
    | NullOrValidArray(objects: seq<Option<P.Validatable>>)
    | NullOrNotValid(obj: Option<P.Validatable>)
    | NullOrNotValidArray(objects: seq<Option<P.Validatable>>)

  /** The predicate each condition asks. */
  predicate Holds(c: Condition) {
    match c
    case NullOrEmpty(s) => P.IsNullOrEmpty(s)
    case NullOrEmptyArray(ss) => P.IsNullOrEmptyArray(Some(ss))
    case NotEmpty(s) => P.IsNotEmpty(s)
    case NotEmptyArray(ss) => P.IsNotEmptyArray(Some(ss))
    case NullOrWhiteSpace(s) => P.IsNullOrWhiteSpace(s)
    case NullOrWhiteSpaceArray(ss) => P.IsNullOrWhiteSpaceArray(Some(ss))
    case NotWhiteSpace(s) => P.IsNotWhiteSpace(s)
    case NotWhiteSpaceArray(ss) => P.IsNotWhiteSpaceArray(Some(ss))
    case Valid(o) => P.IsValid(o)
    case ValidArray(os) => P.AllValid(os)
    case NotValid(o) => P.IsNotValid(o)
    case NotValidArray(os) => P.AllNotValid(os)
    case NullOrValid(o) => P.IsNullOrValid(o)
    case NullOrValidArray(os) => P.AllNullOrValid(os)
    case NullOrNotValid(o) => P.IsNullOrNotValid(o)
    case NullOrNotValidArray(os) => P.AllNullOrNotValid(os)
  }

  /** `expectNullOrEmpty`, `expectNotEmpty`, `expectNullOrWhiteSpace`, `expectNotWhiteSpace`,
      `expectValid`, `expectNotValid`, `expectNullOrValid`, `expectNullOrNotValid` and their
      array overloads: `expectTrue` of the predicate. */
  function ExpectCondition(c: Condition, message: Option<string>): (r: Outcome)
    ensures r.Ok? <==> Holds(c)
    ensures r.Raised? ==> r.error == Throwable(ExpectationError, message, None)
  {
    ExpectTrue(Holds(c), message)
  }

  /** The condition of opposite polarity, where `util.Expect` has one. */
  function Opposite(c: Condition): Option<Condition> {
    match c
    case NullOrEmpty(s) => Some(NotEmpty(s))
    case NotEmpty(s) => Some(NullOrEmpty(s))
    case NullOrEmptyArray(ss) => Some(NotEmptyArray(ss))
    case NotEmptyArray(ss) => Some(NullOrEmptyArray(ss))
    case NullOrWhiteSpace(s) => Some(NotWhiteSpace(s))
    case NotWhiteSpace(s) => Some(NullOrWhiteSpace(s))
    case NullOrWhiteSpaceArray(ss) => Some(NotWhiteSpaceArray(ss))
    case NotWhiteSpaceArray(ss) => Some(NullOrWhiteSpaceArray(ss))
    case Valid(o) => Some(NullOrNotValid(o))
    case NullOrNotValid(o) => Some(Valid(o))
    case NotValid(o) => Some(NullOrValid(o))
    case NullOrValid(o) => Some(NotValid(o))
    case _ => None
  }

  /** A check and its opposite never both pass and never both fail. */
  lemma OppositeConditionsComplement(c: Condition, m1: Option<string>, m2: Option<string>)
    requires Opposite(c).Some?
    ensures ExpectCondition(c, m1).Ok? <==> ExpectCondition(Opposite(c).value, m2).Raised?
  {
  }

  // ---- expectThrows ----

  /** The class passed to `expectThrows`: its simple name and its `isInstance` test. */
  datatype ThrowableClass = ThrowableClass(simpleName: string, isInstance: Throwable -> bool)

  /** "Unexpected exception type thrown;" and the `format` of the two simple names,
      each a `String` object. The message names both simple names; when two different
      classes share a simple name, the class names `format` adds are both
      `java.lang.String`, so the message reads the same on both sides. */
  function MismatchMessage(expected: ThrowableClass, thrown: Throwable): (m: string)
    ensures var e, a := expected.simpleName, SimpleName(thrown.kind);
      && (e != a ==>
            m == "Unexpected exception type thrown;" + " " + ("expected:<" + e + "> but was:<" + a + ">"))
      && (e == a ==>
            m == "Unexpected exception type thrown;" + " "
                 + ("expected: " + (StringClassName + "<" + e + ">") + " but was: " + (StringClassName + "<" + a + ">")))
  {
    Format(Some("Unexpected exception type thrown;"),
           JavaString(0, expected.simpleName), JavaString(0, SimpleName(thrown.kind)))
  }

  /** `expectThrows`: `run` is what running the runnable did. A throwable of the expected
      class is handed back unchanged; one of another class raises an `ExpectationError`
      whose cause is that throwable; a normal return raises an `ExpectationError` saying
      nothing was thrown. */
  function ExpectThrows(expected: ThrowableClass, run: Outcome): (r: Result<Throwable>)
    ensures run.Raised? && expected.isInstance(run.error) ==> r == Returned(run.error)
    ensures run.Raised? && !expected.isInstance(run.error) ==>
      r == Threw(Throwable(ExpectationError, Some(MismatchMessage(expected, run.error)), Some(run.error)))
    ensures run.Ok? ==>
      r == Threw(Throwable(ExpectationError,
                           Some("Expected " + expected.simpleName + " to be thrown, but nothing was thrown"), None))
  {
    match run
    case Raised(actualThrown) =>
      if expected.isInstance(actualThrown) then
        Returned(actualThrown)
      else
        Threw(Throwable(ExpectationError, Some(MismatchMessage(expected, actualThrown)), Some(actualThrown)))
    case Ok =>
      Threw(Throwable(ExpectationError, Some("Expected " + expected.simpleName + " to be thrown, but nothing was thrown"), None))
  }
}
