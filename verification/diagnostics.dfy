/** The expectation checks `Guard` and the models delegate to
    (`com.roxiemobile.androidcommons.diagnostics.Expect`). That class is not part of
    this model: each of its checks is reduced to the condition it tests, and a failed
    check raises an `ExpectationException` naming the check instead of the message the
    class formats. Null texts count as empty and blank; a null validatable is neither
    valid nor invalid; broadcast forms pass when every element passes. */
module DiagnosticsExpect {
  import opened Lang
  import P = Predicates

  /** One call of a diagnostics expectation, with its operands. Arrays and collections
      of the broadcast forms are non-null; a container whose emptiness is checked is
      represented by its size, or `None` for null. */
  datatype Check =
    | IsTrue(condition: bool)
    | IsFalse(condition: bool)
    | Equal(expected: Value, actual: Value)
    | NotEqual(unexpected: Value, actual: Value)
    | Same(expected: Value, actual: Value)
    | NotSame(unexpected: Value, actual: Value)
    | IsNull(obj: Value)
    | AllNull(objs: seq<Value>)
    | NotNull(obj: Value)
    | AllNotNull(objs: seq<Value>)
    | Empty(text: Option<string>)
    | AllEmpty(texts: seq<Option<string>>)
    | NotEmpty(text: Option<string>)
    | AllNotEmpty(texts: seq<Option<string>>)
    | EmptyContainer(size: Option<nat>)
    | NotEmptyContainer(size: Option<nat>)
    | Blank(text: Option<string>)
    | AllBlank(texts: seq<Option<string>>)
    | NotBlank(text: Option<string>)
    | AllNotBlank(texts: seq<Option<string>>)
    | Valid(validatable: Option<P.Validatable>)
    | AllValid(validatables: seq<Option<P.Validatable>>)
    | NotValid(validatable: Option<P.Validatable>)
    | AllNotValid(validatables: seq<Option<P.Validatable>>)
    | NullOrValid(validatable: Option<P.Validatable>)
    | AllNullOrValid(validatables: seq<Option<P.Validatable>>)
    | NullOrNotValid(validatable: Option<P.Validatable>)
    | AllNullOrNotValid(validatables: seq<Option<P.Validatable>>)

  /** The name of the `Expect` method performing the check. */
  function Name(c: Check): string {
    match c
    case IsTrue(_) => "expectTrue"
    case IsFalse(_) => "expectFalse"
    case Equal(_, _) => "expectEqual"
    case NotEqual(_, _) => "expectNotEqual"
    case Same(_, _) => "expectSame"
    case NotSame(_, _) => "expectNotSame"
    case IsNull(_) => "expectNull"
    case AllNull(_) => "expectAllNull"
    case NotNull(_) => "expectNotNull"
    case AllNotNull(_) => "expectAllNotNull"
    case Empty(_) => "expectEmpty"
    case AllEmpty(_) => "expectAllEmpty"
    case NotEmpty(_) => "expectNotEmpty"
    case AllNotEmpty(_) => "expectAllNotEmpty"
    case EmptyContainer(_) => "expectEmpty"
    case NotEmptyContainer(_) => "expectNotEmpty"
    case Blank(_) => "expectBlank"
    case AllBlank(_) => "expectAllBlank"
    case NotBlank(_) => "expectNotBlank"
    case AllNotBlank(_) => "expectAllNotBlank"
    case Valid(_) => "expectValid"
    case AllValid(_) => "expectAllValid"
    case NotValid(_) => "expectNotValid"
    case AllNotValid(_) => "expectAllNotValid"
    case NullOrValid(_) => "expectNullOrValid"
    case AllNullOrValid(_) => "expectAllNullOrValid"
    case NullOrNotValid(_) => "expectNullOrNotValid"
    case AllNullOrNotValid(_) => "expectAllNullOrNotValid"
  }

  predicate ContainerEmpty(size: Option<nat>) {
    size.None? || size.value == 0
  }

  /** The condition each check requires. */
  predicate Holds(eq: (Obj, Obj) -> bool, c: Check) {
    match c
    case IsTrue(b) => b
    case IsFalse(b) => !b
    case Equal(e, a) => P.SafeEqual(eq, e, a)
    case NotEqual(u, a) => !P.SafeEqual(eq, u, a)
    case Same(e, a) => Lang.Same(e, a)
    case NotSame(u, a) => !Lang.Same(u, a)
    case IsNull(o) => o.Null?
    case AllNull(os) => forall i :: 0 <= i < |os| ==> os[i].Null?
    case NotNull(o) => o.Ref?
    case AllNotNull(os) => forall i :: 0 <= i < |os| ==> os[i].Ref?
    case Empty(s) => P.IsNullOrEmpty(s)
    case AllEmpty(ss) => forall i :: 0 <= i < |ss| ==> P.IsNullOrEmpty(ss[i])
    case NotEmpty(s) => P.IsNotEmpty(s)
    case AllNotEmpty(ss) => forall i :: 0 <= i < |ss| ==> P.IsNotEmpty(ss[i])
    case EmptyContainer(n) => ContainerEmpty(n)
    case NotEmptyContainer(n) => !ContainerEmpty(n)
    case Blank(s) => P.IsNullOrWhiteSpace(s)
    case AllBlank(ss) => forall i :: 0 <= i < |ss| ==> P.IsNullOrWhiteSpace(ss[i])
    case NotBlank(s) => P.IsNotWhiteSpace(s)
    case AllNotBlank(ss) => forall i :: 0 <= i < |ss| ==> P.IsNotWhiteSpace(ss[i])
    case Valid(v) => P.IsValid(v)
    case AllValid(vs) => P.AllValid(vs)
    case NotValid(v) => P.IsNotValid(v)
    case AllNotValid(vs) => P.AllNotValid(vs)
    case NullOrValid(v) => P.IsNullOrValid(v)
    case AllNullOrValid(vs) => P.AllNullOrValid(vs)
    case NullOrNotValid(v) => P.IsNullOrNotValid(v)
    case AllNullOrNotValid(vs) => P.AllNullOrNotValid(vs)
  }

  /** Runs a check: normal return when its condition holds, otherwise an
      `ExpectationException` naming the check. */
  function Run(eq: (Obj, Obj) -> bool, c: Check): (r: Outcome)
    ensures r.Ok? <==> Holds(eq, c)
    ensures r.Raised? ==> r.error == Throwable(ExpectationException(Name(c)), None, None)
  {
    if Holds(eq, c) then Ok else Raised(Throwable(ExpectationException(Name(c)), None, None))
  }

  /** The check of opposite polarity, for the scalar checks that have one. */
  function Opposite(c: Check): Option<Check> {
    match c
    case IsTrue(b) => Some(IsFalse(b))
    case IsFalse(b) => Some(IsTrue(b))
    case Equal(e, a) => Some(NotEqual(e, a))
    case NotEqual(u, a) => Some(Equal(u, a))
    case Same(e, a) => Some(NotSame(e, a))
    case NotSame(u, a) => Some(Same(u, a))
    case IsNull(o) => Some(NotNull(o))
    case NotNull(o) => Some(IsNull(o))
    case Empty(s) => Some(NotEmpty(s))
    case NotEmpty(s) => Some(Empty(s))
    case EmptyContainer(n) => Some(NotEmptyContainer(n))
    case NotEmptyContainer(n) => Some(EmptyContainer(n))
    case Blank(s) => Some(NotBlank(s))
    case NotBlank(s) => Some(Blank(s))
    case Valid(v) => Some(NullOrNotValid(v))
    case NullOrNotValid(v) => Some(Valid(v))
    case NotValid(v) => Some(NullOrValid(v))
    case NullOrValid(v) => Some(NotValid(v))
    case _ => None
  }

  /** Of a check and its opposite, exactly one holds. */
  lemma OppositeFlips(eq: (Obj, Obj) -> bool, c: Check)
    requires Opposite(c).Some?
    ensures Holds(eq, Opposite(c).value) <==> !Holds(eq, c)
  {
  }
}
