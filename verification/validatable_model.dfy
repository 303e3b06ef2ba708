/** `data.model.ValidatableModel`: a model is valid when its `validate()` hook returns
    without raising an `Exception`. The warning logged on failure is not modelled. */
module ValidatableModel {
  import opened Lang
  import P = Predicates
  import D = DiagnosticsExpect
  import G = Guard

  /** `isValid()`, given what `validate()` did: true on a normal return, false when it
      raised an `Exception` (absorbed), and a raised non-`Exception` throwable escapes. */
  function IsValid(validation: Outcome): (r: Result<bool>)
    ensures validation.Ok? ==> r == Returned(true)
    ensures validation.Raised? && IsException(validation.error.kind) ==> r == Returned(false)
    ensures validation.Raised? && !IsException(validation.error.kind) ==> r == Threw(validation.error)
  {
    match validation
    case Ok => Returned(true)
    case Raised(e) => if IsException(e.kind) then Returned(false) else Threw(e)
  }

  /** `isValid()` returns true exactly when `validate()` returns normally, and it only
      ever raises what `validate()` raised that is not an `Exception`. */
  lemma IsValidIffValidateReturns(validation: Outcome)
    ensures IsValid(validation) == Returned(true) <==> validation.Ok?
    ensures IsValid(validation).Threw? <==> validation.Raised? && !IsException(validation.error.kind)
  {
  }

  /** The default `validate()`: checks nothing and returns normally, so a model that
      does not override it is always valid. */
  function DefaultValidate(): (r: Outcome)
    ensures IsValid(r) == Returned(true)
  {
    Ok
  }

  /** A model seen through the `Validatable` capability: asking it `isValid()` either
      answers, or raises the non-`Exception` throwable `validate()` raised. */
  function AsValidatable(validation: Outcome): (v: Result<P.Validatable>)
    ensures v.Returned? <==> IsValid(validation).Returned?
    ensures v.Returned? ==> (v.value.isValid <==> validation.Ok?)
    ensures v.Threw? ==> validation.Raised? && v.error == validation.error && !IsException(v.error.kind)
  {
    match IsValid(validation)
    case Returned(b) => Returned(P.Validatable(b))
    case Threw(e) => Threw(e)
  }

  /** A model handed to `Guard.valid`, which takes the `data.model.Validatable` this class
      implements: when the model's `isValid()` answers, the guard passes exactly when its
      `validate()` returned normally, and otherwise raises a `GuardError` caused by the
      failed `expectValid` of `diagnostics.Expect`. */
  lemma GuardValidModel(eq: (Obj, Obj) -> bool, validation: Outcome, m: Option<string>)
    requires AsValidatable(validation).Returned?
    ensures var r := G.Guard(eq, D.Valid(Some(AsValidatable(validation).value)), m);
      && (r.Ok? <==> validation.Ok?)
      && (r.Raised? ==>
            r.error == Throwable(GuardError, m, Some(Throwable(ExpectationException("expectValid"), None, None))))
  {
  }
}
