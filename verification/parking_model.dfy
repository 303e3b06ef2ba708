/** The `ParkingModel` test fixture: a watcher name and an array of vehicles, valid when
    the watcher is not blank, the array is not empty and every vehicle is valid. */
module ParkingModel {
  import opened Lang
  import P = Predicates
  import D = DiagnosticsExpect
  import VM = ValidatableModel

  /** `mWatcher` and `mVehicles`; either may be null. Each vehicle is seen through its
      `isValid()` answer. */
  datatype Parking = Parking(watcher: Option<string>, vehicles: Option<seq<Option<P.Validatable>>>)

  /** The length of a possibly-null array, `None` for null. */
  function Size<T>(a: Option<seq<T>>): (n: Option<nat>)
    ensures n.None? <==> a.None?
    ensures n.Some? ==> n.value == |a.value|
  {
    if a.None? then None else Some(|a.value|)
  }

  /** The parking rule itself, stated directly over the fields. */
  predicate Rule(p: Parking) {
    && p.watcher.Some?
    && (exists i :: 0 <= i < |p.watcher.value| && !P.IsWhiteSpace(p.watcher.value[i]))
    && p.vehicles.Some?
    && |p.vehicles.value| > 0
    && forall i :: 0 <= i < |p.vehicles.value| ==>
         p.vehicles.value[i].Some? && p.vehicles.value[i].value.isValid
  }

  /** `validate()`: the inherited no-op, then `expectNotBlank(mWatcher)`,
      `expectNotEmpty(mVehicles)` and `expectAllValid(mVehicles)` in that order; the first
      check that fails is the one raised. */
  function Validate(eq: (Obj, Obj) -> bool, p: Parking): (r: Outcome)
    ensures r.Ok? <==> Rule(p)
    ensures r.Raised? ==> r.error.kind.ExpectationException? && IsException(r.error.kind)
    ensures P.IsNullOrWhiteSpace(p.watcher) ==> r == D.Run(eq, D.NotBlank(p.watcher))
    ensures !P.IsNullOrWhiteSpace(p.watcher) && (p.vehicles.None? || |p.vehicles.value| == 0) ==>
      r == D.Run(eq, D.NotEmptyContainer(Size(p.vehicles)))
    ensures !P.IsNullOrWhiteSpace(p.watcher) && p.vehicles.Some? && |p.vehicles.value| > 0 ==>
      r == D.Run(eq, D.AllValid(p.vehicles.value))
  {
    var inherited := VM.DefaultValidate();
    if inherited.Raised? then inherited
    else
      var watcherCheck := D.Run(eq, D.NotBlank(p.watcher));
      if watcherCheck.Raised? then watcherCheck
      else
        var sizeCheck := D.Run(eq, D.NotEmptyContainer(Size(p.vehicles)));
        if sizeCheck.Raised? then sizeCheck
        else D.Run(eq, D.AllValid(p.vehicles.value))
  }

  /** `isValid()` of a parking model: the inherited `isValid()` applied to its
      `validate()`. Every failure of `validate()` is an `Exception`, so it never raises. */
  function IsValid(eq: (Obj, Obj) -> bool, p: Parking): (r: Result<bool>)
    ensures r.Returned?
    ensures r.value <==> Validate(eq, p).Ok?
  {
    VM.IsValid(Validate(eq, p))
  }

  /** A parking model is valid iff its watcher is not blank, its vehicle array is
      non-null and non-empty, and every vehicle is non-null and valid; `isValid()`
      never raises, because every failed check is an `Exception` and is absorbed. */
  lemma ParkingValidIffRule(eq: (Obj, Obj) -> bool, p: Parking)
    ensures IsValid(eq, p).Returned?
    ensures IsValid(eq, p).value <==> Rule(p)
  {
  }
}
