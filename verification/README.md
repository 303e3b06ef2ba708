# android-commons expectations, guards and validatable models in Dafny

This project models the runtime validation core of the android-commons library:

- `util.Expect`, the expectation methods. Each one returns normally when its condition
  holds. Otherwise it raises an `ExpectationError`, or a `ComparisonFailure` for two
  unequal strings. The message is the caller's or a formatted description.
- `diagnostics.Guard`, which runs the matching diagnostics expectation without the
  caller's message. It turns an `ExpectationException` into a `GuardError` that carries
  the original as its cause.
- `ValidatableModel.isValid()`, which turns "did `validate()` raise an `Exception`?"
  into a boolean.
- The `ParkingModel` fixture's three-step validation rule.
- The `ThrowIf` methods. The `util.ThrowIf` class is not part of this model, so its methods are defined from the test vectors of `ThrowIfTests`.

Every check is a pure function. Its result is an `Outcome`: `Ok` for a normal return, or
`Raised` with a `Throwable(kind, message, cause)`. `expectThrows` and `isValid` return a
`Result`. A Java reference is `Null` or a `Ref` to an `Obj`. An `Obj` records an identity,
its class name, its simple name and its `toString()` text. Reference identity is equality
of identities. `equals` is a relation passed to the checks that use it. A null message or
string is `None`.

Modules, one per source component:

| file | module | models |
|---|---|---|
| lang.dfy | `Lang` | Java references, `String.valueOf`, throwable kinds, call outcomes |
| predicates.dfy | `Predicates` | `safeEqual` and the `StringUtils` / `ValidatableUtils` predicates |
| expect.dfy | `Expect` | `util.Expect` |
| diagnostics.dfy | `DiagnosticsExpect` | the diagnostics expectations `Guard` and `ParkingModel` call, reduced to their conditions |
| guard.dfy | `Guard` | `diagnostics.Guard` |
| validatable_model.dfy | `ValidatableModel` | `ValidatableModel` |
| parking_model.dfy | `ParkingModel` | the `ParkingModel` fixture |
| throw_if.dfy | `ThrowIf` | the `ThrowIf` methods, defined from their test vectors |
| throw_if_tests.dfy | `ThrowIfTests` | the `ThrowIfTests` test methods as lemmas |

## Model

| member | source | states |
|---|---|---|
| Expect.ThrowError | modules/android-commons/src/main/java/com/roxiemobile/androidcommons/util/Expect.java:577-582 | raises an `ExpectationError` with exactly the given message, and none for null |
| Expect.ExpectTrue | modules/android-commons/src/main/java/com/roxiemobile/androidcommons/util/Expect.java:34-38 | returns iff the condition holds; otherwise an `ExpectationError` with the caller's message (none for null) and no cause |
| Expect.ExpectFalse | modules/android-commons/src/main/java/com/roxiemobile/androidcommons/util/Expect.java:55-57 | returns iff the condition is false, raising the same error `expectTrue` of the negation raises |
| Expect.FormatPrefix | modules/android-commons/src/main/java/com/roxiemobile/androidcommons/util/Expect.java:553-558 | the message and a space only for a non-null, non-empty message; empty otherwise |
| Expect.FormatClassAndValue | modules/android-commons/src/main/java/com/roxiemobile/androidcommons/util/Expect.java:572-575 | the class name, or "null" for null, followed by the rendering in angle brackets |
| Expect.Format | modules/android-commons/src/main/java/com/roxiemobile/androidcommons/util/Expect.java:553-570 | differing renderings give "expected:<e> but was:<a>"; coinciding renderings give "expected: C<e> but was: D<a>"; always behind the prefix |
| Expect.FormatDisambiguates | modules/android-commons/src/main/java/com/roxiemobile/androidcommons/util/Expect.java:560-575 | when the renderings coincide, the two operand descriptions are equal exactly when the class names are, so operands differing in class are told apart |
| Expect.FormatMessageIsPrefix | modules/android-commons/src/main/java/com/roxiemobile/androidcommons/util/Expect.java:553-558 | a null or empty message leaves the description unchanged; any other message is put in front of it with one space |
| Expect.FailNotEqual | modules/android-commons/src/main/java/com/roxiemobile/androidcommons/util/Expect.java:512-514 | raises an `ExpectationError` whose message is the `format` description |
| Expect.FailEqual | modules/android-commons/src/main/java/com/roxiemobile/androidcommons/util/Expect.java:516-524 | "Values should be different. Actual: a" without a message; "m. Actual: a" with one, so the caller's message replaces the default text |
| Expect.FailPrefix | modules/android-commons/src/main/java/com/roxiemobile/androidcommons/util/Expect.java:527-531 | any non-null message, even an empty one, followed by a space |
| Expect.FailSame | modules/android-commons/src/main/java/com/roxiemobile/androidcommons/util/Expect.java:526-533 | "expected not same", behind the message and a space when one is given |
| Expect.FailNotSame | modules/android-commons/src/main/java/com/roxiemobile/androidcommons/util/Expect.java:535-542 | "[m ]expected same:<e> was not:<a>" as an `ExpectationError` without cause |
| Expect.FailNotNull | modules/android-commons/src/main/java/com/roxiemobile/androidcommons/util/Expect.java:544-551 | "[m ]expected null, but was:<a>" as an `ExpectationError` without cause |
| Expect.EmptyMessageConventions | modules/android-commons/src/main/java/com/roxiemobile/androidcommons/util/Expect.java:526-558 | an empty message is dropped by `format` but kept, with its space, by the `fail*` helpers |
| Expect.ExpectEqual | modules/android-commons/src/main/java/com/roxiemobile/androidcommons/util/Expect.java:79-91 | returns iff null-safe equal; two unequal strings raise a `ComparisonFailure` with both strings and the message ("" for null); other unequal pairs raise an `ExpectationError` with the `format` description |
| Expect.ExpectNotEqual | modules/android-commons/src/main/java/com/roxiemobile/androidcommons/util/Expect.java:114-118 | raises iff null-safe equal, with the `failEqual` message naming the actual value |
| Expect.EqualNotEqualComplement | modules/android-commons/src/main/java/com/roxiemobile/androidcommons/util/Expect.java:79-118 | on every pair, `expectEqual` returns exactly when `expectNotEqual` raises, whatever the messages |
| Expect.EqualReflexive | modules/android-commons/src/main/java/com/roxiemobile/androidcommons/util/Expect.java:508-510 | with a reflexive `equals`, every value, null included, passes `expectEqual` with itself and fails `expectNotEqual` with itself |
| Expect.ExpectSame | modules/android-commons/src/main/java/com/roxiemobile/androidcommons/util/Expect.java:142-147 | returns iff the references are identical, so two nulls pass; otherwise the `failNotSame` error |
| Expect.ExpectNotSame | modules/android-commons/src/main/java/com/roxiemobile/androidcommons/util/Expect.java:168-172 | raises iff the references are identical, with the `failSame` error |
| Expect.SameReflexive | modules/android-commons/src/main/java/com/roxiemobile/androidcommons/util/Expect.java:142-172 | every reference, null included, passes `expectSame` with itself and fails `expectNotSame` with itself |
| Expect.SameImpliesEqual | modules/android-commons/src/main/java/com/roxiemobile/androidcommons/util/Expect.java:142-147 | when `expectSame` passes, `expectEqual` passes too, for a reflexive `equals` |
| Expect.ExpectNull | modules/android-commons/src/main/java/com/roxiemobile/androidcommons/util/Expect.java:193-198 | returns iff the value is null; otherwise the `failNotNull` error |
| Expect.ExpectNotNull | modules/android-commons/src/main/java/com/roxiemobile/androidcommons/util/Expect.java:215-217 | raises iff the value is null, with the caller's message as in `expectTrue` |
| Expect.ExpectCondition | modules/android-commons/src/main/java/com/roxiemobile/androidcommons/util/Expect.java:233-458 | each text and validity expectation, scalar or array, returns iff its `StringUtils` / `ValidatableUtils` predicate holds, else an `ExpectationError` with the caller's message |
| Expect.OppositeConditionsComplement | modules/android-commons/src/main/java/com/roxiemobile/androidcommons/util/Expect.java:233-458 | `nullOrEmpty`/`notEmpty`, `nullOrWhiteSpace`/`notWhiteSpace`, `valid`/`nullOrNotValid` and `notValid`/`nullOrValid` never both pass and never both fail |
| Expect.ExpectThrows | modules/android-commons/src/main/java/com/roxiemobile/androidcommons/util/Expect.java:482-504 | a thrown instance of the expected class is returned unchanged; another throwable raises an `ExpectationError` caused by it with the mismatch `format` message; a normal return raises "Expected X to be thrown, but nothing was thrown" |
| Expect.MismatchMessage | modules/android-commons/src/main/java/com/roxiemobile/androidcommons/util/Expect.java:496-497 | "Unexpected exception type thrown;" followed by the `format` of the two simple names; when the simple names coincide, both sides show the class `java.lang.String` and read the same |
| Predicates.SafeEqual | modules/android-commons/src/main/java/com/roxiemobile/androidcommons/util/Expect.java:508-510 | a null operand is equal only to null; two objects are equal exactly when `expected.equals(actual)` holds |
| Predicates.SafeEqualReflexive | modules/android-commons/src/main/java/com/roxiemobile/androidcommons/util/Expect.java:508-510 | two nulls are equal and, for a reflexive `equals`, every object equals itself |
| Predicates.SafeEqualSymmetric | modules/android-commons/src/main/java/com/roxiemobile/androidcommons/util/Expect.java:508-510 | null-safe equality is symmetric whenever `equals` is |
| Predicates.SameImpliesSafeEqual | modules/android-commons/src/main/java/com/roxiemobile/androidcommons/util/Expect.java:508-510 | identical references are null-safe equal for a reflexive `equals` |
| Guard.ThrowError | modules/android-commons/src/main/java/com/roxiemobile/androidcommons/diagnostics/Guard.java:388-393 | a `GuardError` caused by the given throwable, carrying exactly the caller's message (none for null) |
| Guard.RethrowOnFailure | modules/android-commons/src/main/java/com/roxiemobile/androidcommons/diagnostics/Guard.java:375-386 | a normal return passes through; an `ExpectationException` becomes a `GuardError` caused by it; any other throwable propagates unchanged |
| Guard.Guard | modules/android-commons/src/main/java/com/roxiemobile/androidcommons/diagnostics/Guard.java:49-371 | each guard returns iff its same-named expectation returns; otherwise a `GuardError` with the caller's message whose cause is exactly what the expectation raised |
| Guard.MessageNotForwarded | modules/android-commons/src/main/java/com/roxiemobile/androidcommons/diagnostics/Guard.java:49-109 | whether a guard fails, and its cause, do not depend on the caller's message |
| Guard.GuardPolarity | modules/android-commons/src/main/java/com/roxiemobile/androidcommons/diagnostics/Guard.java:49-371 | a guard and the guard of the opposite check (`isTrue`/`isFalse`, `equal`/`notEqual`, `same`/`notSame`, `isNull`/`notNull`, ...) never both pass and never both fail |
| ValidatableModel.IsValid | modules/android-commons/src/main/java/com/roxiemobile/androidcommons/data/model/ValidatableModel.java:15-32 | true when `validate()` returns, false when it raises an `Exception`, and a non-`Exception` throwable escapes unchanged |
| ValidatableModel.IsValidIffValidateReturns | modules/android-commons/src/main/java/com/roxiemobile/androidcommons/data/model/ValidatableModel.java:15-32 | `isValid()` is true exactly when `validate()` returns normally, and raises only what `validate()` raised that is not an `Exception` |
| ValidatableModel.DefaultValidate | modules/android-commons/src/main/java/com/roxiemobile/androidcommons/data/model/ValidatableModel.java:37-39 | the default `validate()` makes a model valid |
| ValidatableModel.AsValidatable | modules/android-commons/src/main/java/com/roxiemobile/androidcommons/data/model/ValidatableModel.java:7-32 | seen as a `Validatable`, a model answers `isValid()` with whether `validate()` returned normally, or raises the non-`Exception` throwable `validate()` raised |
| ValidatableModel.GuardValidModel | modules/android-commons/src/main/java/com/roxiemobile/androidcommons/diagnostics/Guard.java:306-308 | a model whose `isValid()` answers passes `Guard.valid` exactly when its `validate()` returned normally; otherwise the guard raises a `GuardError` with the caller's message, caused by the failed `expectValid` |
| ParkingModel.Validate | modules/android-commons/src/test/java/com/roxiemobile/androidcommons/data/model/ParkingModel.java:17-25 | returns iff the watcher is non-blank, the vehicles are non-null and non-empty, and every vehicle is valid; the first failing check of watcher, non-empty, all-valid is the one raised |
| ParkingModel.IsValid | modules/android-commons/src/main/java/com/roxiemobile/androidcommons/data/model/ValidatableModel.java:15-32 | the inherited `isValid()` of a parking model never raises, and is true exactly when its `validate()` returns normally |
| ParkingModel.ParkingValidIffRule | modules/android-commons/src/test/java/com/roxiemobile/androidcommons/data/model/ParkingModel.java:9-25 | `isValid()` of a parking model never raises and is true iff the parking rule holds |
| ThrowIf.ThrowIfTrue | modules/android-commons/src/test/java/com/roxiemobile/androidcommons/util/ThrowIfTests.java:35-44 | raises iff the condition is true |
| ThrowIf.ThrowIfFalse | modules/android-commons/src/test/java/com/roxiemobile/androidcommons/util/ThrowIfTests.java:47-56 | raises iff the condition is false |
| ThrowIf.ThrowIfEqual | modules/android-commons/src/test/java/com/roxiemobile/androidcommons/util/ThrowIfTests.java:61-80 | raises iff the operands are null-safe equal |
| ThrowIf.ThrowIfNotEqual | modules/android-commons/src/test/java/com/roxiemobile/androidcommons/util/ThrowIfTests.java:83-102 | raises iff the operands are not null-safe equal |
| ThrowIf.ThrowIfNull | modules/android-commons/src/test/java/com/roxiemobile/androidcommons/util/ThrowIfTests.java:107-116 | raises iff the value is null |
| ThrowIf.ThrowIfNotNull | modules/android-commons/src/test/java/com/roxiemobile/androidcommons/util/ThrowIfTests.java:119-128 | raises iff the value is not null |
| ThrowIf.ThrowIfNullOrEmpty | modules/android-commons/src/test/java/com/roxiemobile/androidcommons/util/ThrowIfTests.java:133-150 | raises iff the text is null or "" |
| ThrowIf.ThrowIfNullOrEmptyArray | modules/android-commons/src/test/java/com/roxiemobile/androidcommons/util/ThrowIfTests.java:153-184 | raises iff the array is null or empty or has a null or empty element |
| ThrowIf.ThrowIfNullOrWhiteSpace | modules/android-commons/src/test/java/com/roxiemobile/androidcommons/util/ThrowIfTests.java:189-210 | raises iff the text is null or all whitespace |
| ThrowIf.ThrowIfNullOrWhiteSpaceArray | modules/android-commons/src/test/java/com/roxiemobile/androidcommons/util/ThrowIfTests.java:213-248 | raises iff the array is null or empty or has a null or blank element |
| ThrowIf.ThrowIfNotValid | modules/android-commons/src/test/java/com/roxiemobile/androidcommons/util/ThrowIfTests.java:253-270 | raises iff the object is non-null and invalid |
| ThrowIf.ThrowIfNotValidArray | modules/android-commons/src/test/java/com/roxiemobile/androidcommons/util/ThrowIfTests.java:273-297 | raises iff the array is null or has a non-null invalid element |
| ThrowIf.ThrowIfNullOrNotValid | modules/android-commons/src/test/java/com/roxiemobile/androidcommons/util/ThrowIfTests.java:302-319 | raises iff the object is null or invalid |
| ThrowIf.ThrowIfNullOrNotValidArray | modules/android-commons/src/test/java/com/roxiemobile/androidcommons/util/ThrowIfTests.java:322-352 | raises iff the array is null or has a null or invalid element |
| ThrowIf.ThrowIfMirrorsExpectValues | modules/android-commons/src/test/java/com/roxiemobile/androidcommons/util/ThrowIfTests.java:35-128 | `throwIfTrue`, `throwIfFalse`, `throwIfEqual`, `throwIfNotEqual`, `throwIfNull` and `throwIfNotNull` raise exactly when the `expect*` method of opposite polarity raises |
| ThrowIf.ThrowIfMirrorsExpectTexts | modules/android-commons/src/test/java/com/roxiemobile/androidcommons/util/ThrowIfTests.java:133-248 | `throwIfNullOrEmpty` and `throwIfNullOrWhiteSpace` raise exactly when `expectNotEmpty` and `expectNotWhiteSpace` raise, scalar and array |
| ThrowIf.ThrowIfMirrorsExpectValidity | modules/android-commons/src/test/java/com/roxiemobile/androidcommons/util/ThrowIfTests.java:253-352 | `throwIfNotValid` and `throwIfNullOrNotValid` raise exactly when `expectNullOrValid` and `expectValid` raise, scalar and array |
| ThrowIf.EmptyArrayAsymmetry | modules/android-commons/src/test/java/com/roxiemobile/androidcommons/util/ThrowIfTests.java:162-297 | an empty array fails the null-or-empty and null-or-blank checks but passes both validity checks |
| ThrowIfTests.TestThrowIfTrue | modules/android-commons/src/test/java/com/roxiemobile/androidcommons/util/ThrowIfTests.java:35-44 | `throwIfTrue(2 > 1)` raises a `ValidationException`; `throwIfTrue(1 > 2)` returns |
| ThrowIfTests.TestThrowIfFalse | modules/android-commons/src/test/java/com/roxiemobile/androidcommons/util/ThrowIfTests.java:47-56 | `throwIfFalse(1 > 2)` raises; `throwIfFalse(2 > 1)` returns |
| ThrowIfTests.TestThrowIfEqual | modules/android-commons/src/test/java/com/roxiemobile/androidcommons/util/ThrowIfTests.java:61-80 | raises on (2, 2) and (s, s), returns on (1, 2) and (s, null) |
| ThrowIfTests.TestThrowIfNotEqual | modules/android-commons/src/test/java/com/roxiemobile/androidcommons/util/ThrowIfTests.java:83-102 | raises on (1, 2) and (s, null), returns on (2, 2) and (s, s) |
| ThrowIfTests.TestThrowIfNull | modules/android-commons/src/test/java/com/roxiemobile/androidcommons/util/ThrowIfTests.java:107-116 | raises on null, returns on 2 |
| ThrowIfTests.TestThrowIfNotNull | modules/android-commons/src/test/java/com/roxiemobile/androidcommons/util/ThrowIfTests.java:119-128 | raises on 2, returns on null |
| ThrowIfTests.TestThrowIfNullOrEmpty | modules/android-commons/src/test/java/com/roxiemobile/androidcommons/util/ThrowIfTests.java:133-150 | raises on null and "", returns on "value" |
| ThrowIfTests.TestThrowIfNullOrEmptyArray | modules/android-commons/src/test/java/com/roxiemobile/androidcommons/util/ThrowIfTests.java:153-184 | raises on [""], [s, null], [s, ""], a null array and []; returns on [s, t] |
| ThrowIfTests.TestThrowIfNullOrWhiteSpace | modules/android-commons/src/test/java/com/roxiemobile/androidcommons/util/ThrowIfTests.java:189-210 | raises on null, "" and " \t\r\n", returns on "value" |
| ThrowIfTests.TestThrowIfNullOrWhiteSpaceArray | modules/android-commons/src/test/java/com/roxiemobile/androidcommons/util/ThrowIfTests.java:213-248 | raises on [" \t\r\n"], [s, null], [s, ""], [s, " \t\r\n"], a null array and []; returns on [s, t] |
| ThrowIfTests.TestThrowIfNotValid | modules/android-commons/src/test/java/com/roxiemobile/androidcommons/util/ThrowIfTests.java:253-270 | raises on an invalid object, returns on a valid object and on null |
| ThrowIfTests.TestThrowIfNotValidArray | modules/android-commons/src/test/java/com/roxiemobile/androidcommons/util/ThrowIfTests.java:273-297 | raises on [invalid] and a null array, returns on [valid, null] and [] |
| ThrowIfTests.TestThrowIfNullOrNotValid | modules/android-commons/src/test/java/com/roxiemobile/androidcommons/util/ThrowIfTests.java:302-319 | raises on null and an invalid object, returns on a valid object |
| ThrowIfTests.TestThrowIfNullOrNotValidArray | modules/android-commons/src/test/java/com/roxiemobile/androidcommons/util/ThrowIfTests.java:322-352 | raises on [invalid], [valid, null], [valid, invalid] and a null array; returns on [valid] and [] |

## Left out

- The message-less overloads of `Expect` and `Guard` each call the message overload with null. The model has only the message form, called with `None`.
- `diagnostics.Expect` is not part of this model. `DiagnosticsExpect.Run` reduces each of its checks to the condition it tests. A failed check raises an `ExpectationException` that names the check. The message that class formats is not modelled.
- `DiagnosticsExpect.Run`: the broadcast forms take a non-null array or collection. How the unseen class treats a null one is not modelled.
- `DiagnosticsExpect.Holds`: a null container counts as empty, so `Guard.empty(null)` passes and `Guard.notEmpty(null)` raises with `expectNotEmpty`. A null text counts as both empty and blank. A null element fails the validity broadcasts (`expectAllValid`, `expectAllNotValid`), so `ParkingModel.Rule` requires every vehicle to be non-null. These are assumptions about `diagnostics.Expect`, which is not part of this model.
- `Guard.ThrowError`: a null message gives a `GuardError` with no message. The message the `GuardError(cause)` constructor derives from its cause is not modelled, since `GuardError` is not part of this model.
- `Guard.RethrowOnFailure`: only the `ExpectationException` kind is caught. Subclasses of that class are not known, so none are modelled. The unreachable null-task `NullPointerException` branch is left out.
- `Expect.ExpectEqual`: a `ComparisonFailure` is modelled by its kind, its two strings and the message passed to its constructor. Its diff-style `getMessage()` belongs to a class that is not part of this model.
- `Expect.Format`: an object whose `toString()` returns null is not modelled. As the expected operand, Java's `util.Expect` then calls `equals` on a null string and throws a `NullPointerException`. As the actual operand, `equals` returns false and the message renders it as "null".
- `Lang.IsException`: `ExpectationError`, `ComparisonFailure` and `GuardError` are taken to be `java.lang.Error`s, and `ExpectationException` and `ValidationException` to be `Exception`s. The classes themselves are not part of this model. This decides which failures `isValid()` absorbs.
- `StringUtils` and `ValidatableUtils` are not part of this model. Their predicates are defined to agree with the `ThrowIf` test vectors. A null or empty array, or any null or empty element, counts as "null or empty"; the validity broadcasts pass on an empty array.
- `Predicates.IsWhiteSpace` accepts the Latin-1 characters `Character.isWhitespace` accepts. The exact Unicode whitespace set of `StringUtils` is not modelled.
- `Expect.ExpectCondition`: each validatable is represented by its `isValid()` answer, so the model assumes that `isValid()` returns. A validatable whose `isValid()` raises is not modelled; such a throwable would propagate out of the validity checks instead of their own failure. For a `ValidatableModel` that is the case where `validate()` raises a non-`Exception`: `ValidatableModel.AsValidatable` shows it as `Threw`, and `ValidatableModel.GuardValidModel` covers only the case where `isValid()` answers. The same assumption holds for the `ThrowIf` and `DiagnosticsExpect` validity checks.
- `Predicates.Validatable` stands for three distinct Java interfaces: `data.validator.Validatable`, which `util.Expect` takes; `data.model.Validatable`, which `ValidatableModel` implements and `diagnostics.Guard` takes; and the `Validatable` that `ThrowIfTests` uses. Each is reduced to its `isValid()` answer. The model connects `ValidatableModel` only to `Guard` and the diagnostics checks, and makes no claim that a `ValidatableModel` is accepted by `util.Expect`.
- `Predicates.AllNotValid` and `Predicates.AllNullOrNotValid` are element-wise broadcasts behind `expectNotValid(Validatable[])` and `expectNullOrNotValid(Validatable[])`. By contrast, `IsNotEmptyArray` and `IsNotWhiteSpaceArray` are the negations of their null-or-empty and null-or-blank counterparts. No test vector pins down the two validity broadcasts, so their treatment of a null element and of `[]` is an assumption.
- The `ThrowIf` class is not part of this model. Its methods are defined from `ThrowIfTests`. Every failure is a `ValidationException` with no message, because the real message is unknown.
- `ThrowIfTests.testNotThrowIfValidModel` and `testThrowIfNotValidModel` read JSON fixtures through `DataMapper`. That JSON I/O is left out; `ParkingModel.ParkingValidIffRule` states the rule those tests exercise.
- The test harness helpers `loadJson`, `expectThrowsException` and `expectNotThrowsException` are scaffolding and are left out.
- `ValidatableModel.IsValid`: the `Logger.w` warning on failure is a logging side effect and is not modelled.
- `expectThrows` is given what the runnable did, not the runnable itself. The expected class is given by its simple name and its `isInstance` test.
- `URIAdapter` only delegates to Gson and `java.net.URI`, and is left out. So are `Serializable` and stack traces.
- Java `equals`, `toString`, `getName` and `getSimpleName` are not reimplemented. They are fields of `Obj`, or the relation `eq`. Lemmas that need `equals` to be reflexive or symmetric say so in their `requires`.
- `ParkingModel.Validate`: each vehicle is represented by its `isValid()` answer, so the model assumes that a vehicle's `isValid()` returns. In Java, a vehicle whose `isValid()` raises a non-`Exception` makes `expectAllValid` propagate that throwable out of `validate()`. The clause that every failure is an `ExpectationException` holds only under this assumption.
- `ParkingModel.ParkingValidIffRule`: "never raises" rests on the same assumption about each vehicle's `isValid()`. In Java, a vehicle's non-`Exception` throwable escapes the parking model's `isValid()`, because only `Exception` is caught there.
- `ParkingModel.IsValid`: the same assumption about each vehicle's `isValid()` underlies its "never raises" clause.
