/** Result/Tr1ppy.Result/Types: the two result types, their factories,
    conversions and getters. A stored field that may be null is an `Option`
    (`None` is null); `default(T)` of the type argument is passed in as
    `faultDefault` / `valueDefault` (`None` for a reference type). */
module Results {
  import opened Wrappers

  /** The markers built by the static `Result` class and converted implicitly. */
  datatype SuccessMarker = SuccessMarker
  datatype SuccessMarkerOf<+V> = SuccessMarkerOf(value: V)
  datatype FailureMarker<+F> = FailureMarker(fault: F)

  /** `Result<TFault>`: `_success` and `_fault`. */
  datatype Result<+F> = Result(success: bool, fault: Option<F>)
  {
    predicate IsSuccess() { success }
    predicate IsFailure() { !success }

    function GetFaultOrDefault(): Option<F> { fault }
  }

  /** `new Result<TFault>()` and `Success()`: the fault field keeps its default. */
  function Success<F>(faultDefault: Option<F>): (r: Result<F>)
    ensures r.IsSuccess() && !r.IsFailure()
    ensures r.GetFaultOrDefault() == faultDefault
  {
    Result(true, faultDefault)
  }

  /** `new Result<TFault>(fault)` and `Fail(fault)`. */
  function Fail<F>(fault: Option<F>): (r: Result<F>)
    ensures r.IsFailure() && !r.IsSuccess()
    ensures r.GetFaultOrDefault() == fault
  {
    Result(false, fault)
  }

  /** The implicit conversions to `Result<TFault>`. */
  function FromSuccessMarker<F>(m: SuccessMarker, faultDefault: Option<F>): Result<F>
  {
    Success(faultDefault)
  }

  function FromFault<F>(fault: F): Result<F>
  {
    Fail(Some(fault))
  }

  function FromFailureMarker<F>(m: FailureMarker<F>): Result<F>
  {
    Fail(Some(m.fault))
  }

  /** `GetFaultOrThrow`: the fault, unless it is null or the type's default. */
  function GetFaultOrThrow<F(==)>(r: Result<F>, faultDefault: Option<F>): (o: Outcome<F>)
    ensures o.Ok? <==> r.fault.Some? && r.fault != faultDefault
    ensures o.Ok? ==> Some(o.value) == r.GetFaultOrDefault()
    ensures o.Throw? ==> o.exception == ArgumentNull("_fault")
  {
    if r.fault.None? || r.fault == faultDefault then Throw(ArgumentNull("_fault")) else Ok(r.fault.value)
  }

  /** Every success holds the default fault, so asking it for its fault throws;
      a conversion from a fault or a failure marker fails with that fault,
      which `GetFaultOrThrow` hands back unless it is the default. */
  lemma ResultConstructions<F>(fault: F, faultDefault: Option<F>)
    ensures GetFaultOrThrow(Success(faultDefault), faultDefault).Throw?
    ensures GetFaultOrThrow(FromSuccessMarker(SuccessMarker, faultDefault), faultDefault).Throw?
    ensures FromFault(fault).IsFailure() && FromFault(fault).GetFaultOrDefault() == Some(fault)
    ensures FromFailureMarker(FailureMarker(fault)) == FromFault(fault)
    ensures Some(fault) != faultDefault ==> GetFaultOrThrow(FromFault(fault), faultDefault) == Ok(fault)
  {
  }

  /** `Result<TFault, TValue>`: a `Result<TFault>` with a `_value` field. */
  datatype ResultOf<+F, +V> = ResultOf(success: bool, fault: Option<F>, value: Option<V>)
  {
    predicate IsSuccess() { success }
    predicate IsFailure() { !success }

    function GetFaultOrDefault(): Option<F> { fault }
    function GetValueOrDefault(): Option<V> { value }
  }

  /** The parameterless constructor: a success holding the default value. */
  function EmptySuccess<F, V>(faultDefault: Option<F>, valueDefault: Option<V>): (r: ResultOf<F, V>)
    ensures r.IsSuccess() && r.GetValueOrDefault() == valueDefault
  {
    ResultOf(true, faultDefault, valueDefault)
  }

  /** `Fail(fault)`: a failure with the value at its default. */
  function FailOf<F, V>(fault: Option<F>, valueDefault: Option<V>): (r: ResultOf<F, V>)
    ensures r.IsFailure() && r.GetFaultOrDefault() == fault && r.GetValueOrDefault() == valueDefault
  {
    ResultOf(false, fault, valueDefault)
  }

  /** `Success(value)`: a success holding the value. */
  function SuccessOf<F, V>(value: Option<V>, faultDefault: Option<F>): (r: ResultOf<F, V>)
    ensures r.IsSuccess() && r.GetValueOrDefault() == value && r.GetFaultOrDefault() == faultDefault
  {
    ResultOf(true, faultDefault, value)
  }

  /** The implicit conversions to `Result<TFault, TValue>`. */
  function FromValue<F, V>(value: V, faultDefault: Option<F>): ResultOf<F, V>
  {
    SuccessOf(Some(value), faultDefault)
  }

  function FromFaultOf<F, V>(fault: F, valueDefault: Option<V>): ResultOf<F, V>
  {
    FailOf(Some(fault), valueDefault)
  }

  function FromSuccessMarkerOf<F, V>(m: SuccessMarkerOf<V>, faultDefault: Option<F>): ResultOf<F, V>
  {
    SuccessOf(Some(m.value), faultDefault)
  }

  function FromFailureMarkerOf<F, V>(m: FailureMarker<F>, valueDefault: Option<V>): ResultOf<F, V>
  {
    FailOf(Some(m.fault), valueDefault)
  }

  /** `GetValueOrThrow`: the value, unless it is null or the type's default,
      even for a success that holds that default. */
  function GetValueOrThrow<F, V(==)>(r: ResultOf<F, V>, valueDefault: Option<V>): (o: Outcome<V>)
    ensures o.Ok? <==> r.value.Some? && r.value != valueDefault
    ensures o.Ok? ==> Some(o.value) == r.GetValueOrDefault()
    ensures o.Throw? ==> o.exception == ArgumentNull("_value")
  {
    if r.value.None? || r.value == valueDefault then Throw(ArgumentNull("_value")) else Ok(r.value.value)
  }

  /** A value conversion round-trips through `GetValueOrThrow` unless the value
      is the default; a failure never yields a value; both marker conversions
      agree with the plain ones. */
  lemma ResultOfConstructions<F, V>(value: V, fault: F, faultDefault: Option<F>, valueDefault: Option<V>)
    ensures FromValue(value, faultDefault).IsSuccess()
    ensures GetValueOrThrow(FromValue(value, faultDefault), valueDefault) ==
      if Some(value) == valueDefault then Throw(ArgumentNull("_value")) else Ok(value)
    ensures GetValueOrThrow(FromFaultOf(fault, valueDefault), valueDefault).Throw?
    ensures GetValueOrThrow(EmptySuccess(faultDefault, valueDefault), valueDefault).Throw?
    ensures FromSuccessMarkerOf(SuccessMarkerOf(value), faultDefault) == FromValue(value, faultDefault)
    ensures FromFailureMarkerOf(FailureMarker(fault), valueDefault) == FromFaultOf(fault, valueDefault)
    ensures FromFaultOf(fault, valueDefault).IsFailure() && FromFaultOf(fault, valueDefault).fault == Some(fault)
  {
  }
}
