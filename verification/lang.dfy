/** The Java vocabulary every check is stated in: nullable references, throwables,
    and what a call does (return normally, return a value, or raise). */
module Lang {

  /** A possibly-null reference to something that is not itself a Java object of
      interest here: a message string, a text, an array. */
  datatype Option<+T> = None | Some(value: T)

  /** A non-null Java object as the checks can observe it: its identity, the names
      `getClass().getName()` and `getClass().getSimpleName()` return, and the text its
      `toString()` returns. `equals` is not a field: it is passed to the checks that
      use it as a relation over objects. */
  datatype Obj = Obj(id: nat, className: string, simpleName: string, text: string)

  /** A Java reference of static type `Object`. */
  datatype Value = Null | Ref(obj: Obj)

  const StringClassName: string := "java.lang.String"

  /** A `java.lang.String` object with the given contents; `toString()` of a string is the string. */
  function JavaString(id: nat, s: string): (v: Value)
    ensures IsString(v) && ValueOf(v) == s
  {
    Ref(Obj(id, StringClassName, "String", s))
  }

  /** `v instanceof String` (String is final, so the class name decides). */
  predicate IsString(v: Value) {
    v.Ref? && v.obj.className == StringClassName
  }

  /** `String.valueOf(v)`: "null" for null, otherwise `v.toString()`. */
  function ValueOf(v: Value): string {
    match v
    case Null => "null"
    case Ref(o) => o.text
  }

  /** The class name the failure formatter shows for `v`; "null" for null. */
  function ClassName(v: Value): string {
    match v
    case Null => "null"
    case Ref(o) => o.className
  }

  /** Reference comparison `a == b`: two nulls, or two references to one object. */
  predicate Same(a: Value, b: Value) {
    match (a, b)
    case (Null, Null) => true
    case (Ref(x), Ref(y)) => x.id == y.id
    case _ => false
  }

  /** Two references taken from one heap: equal identities denote one object. */
  predicate SameHeap(a: Value, b: Value) {
    a.Ref? && b.Ref? && a.obj.id == b.obj.id ==> a == b
  }

  /** The throwable classes the checks raise or inspect. `ExpectationException`
      records the name of the diagnostics expectation that failed, in place of the
      message that class formats. */
  datatype Kind =
    | ExpectationError
    | ComparisonFailure(expected: string, actual: string)
    | ExpectationException(failed: string)
    | GuardError
    | ValidationException
    | OtherThrowable(simpleName: string, isException: bool)

  datatype Throwable = Throwable(kind: Kind, message: Option<string>, cause: Option<Throwable>)

  /** `getClass().getSimpleName()` of a throwable of kind `k`. */
  function SimpleName(k: Kind): string {
    match k
    case ExpectationError => "ExpectationError"
    case ComparisonFailure(_, _) => "ComparisonFailure"
    case ExpectationException(_) => "ExpectationException"
    case GuardError => "GuardError"
    case ValidationException => "ValidationException"
    case OtherThrowable(name, _) => name
  }

  /** Whether a throwable of kind `k` is a `java.lang.Exception` (as opposed to a
      `java.lang.Error`). The `*Error` classes and the library's own
      `util.ComparisonFailure` are taken to be Errors. */
  predicate IsException(k: Kind) {
    match k
    case ExpectationError => false
    case ComparisonFailure(_, _) => false
    case ExpectationException(_) => true
    case GuardError => false
    case ValidationException => true
    case OtherThrowable(_, isException) => isException
  }

  /** What a `void` call does: return normally or raise. */
  datatype Outcome = Ok | Raised(error: Throwable)

  /** What a value-returning call does: return a value or raise. */
  datatype Result<+T> = Returned(value: T) | Threw(error: Throwable)
}
