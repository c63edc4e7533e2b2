/** `Result<T, TError>`: the core library's success-or-failure value. */
module Results {

  /** What reading a property gives: its value, or the exception it throws. */
  datatype Access<V> = Returned(v: V) | Threw(message: string)

  datatype Result<T, E> = Success(value: T) | Failure(error: E)
  {
    predicate IsSuccess() { this.Success? }

    predicate IsFailure() { !IsSuccess() }

    /** `Value`: throws on a failure. */
    function Value(): (r: Access<T>)
      ensures r.Returned? <==> IsSuccess()
    {
      if IsSuccess() then Returned(value)
      else Threw("Cannot access Value when result is failure.")
    }

    /** `Error`: throws on a success. */
    function Error(): (r: Access<E>)
      ensures r.Returned? <==> IsFailure()
    {
      if IsFailure() then Returned(error)
      else Threw("Cannot access Error when result is success.")
    }
  }

  /** The implicit conversion from a value. */
  function FromValue<T, E>(v: T): (r: Result<T, E>)
    ensures r.IsSuccess() && r.Value() == Returned(v)
  {
    Success(v)
  }

  /** The implicit conversion from an error. */
  function FromError<T, E>(e: E): (r: Result<T, E>)
    ensures r.IsFailure() && r.Error() == Returned(e)
  {
    Failure(e)
  }

  /** A success carries its value and no error. */
  lemma SuccessAccessors<T, E>(v: T)
    ensures var r: Result<T, E> := Success(v);
      r.IsSuccess() && !r.IsFailure() && r.Value() == Returned(v) && r.Error().Threw?
  {
  }

  /** A failure carries its error and no value. */
  lemma FailureAccessors<T, E>(e: E)
    ensures var r: Result<T, E> := Failure(e);
      !r.IsSuccess() && r.IsFailure() && r.Error() == Returned(e) && r.Value().Threw?
  {
  }

  /** Exactly one accessor returns, and it rebuilds the result. */
  lemma AccessorsRebuild<T, E>(r: Result<T, E>)
    ensures r.IsFailure() == !r.IsSuccess()
    ensures r.Value().Returned? != r.Error().Returned?
    ensures r.Value().Returned? ==> r == FromValue(r.Value().v)
    ensures r.Error().Returned? ==> r == FromError(r.Error().v)
  {
  }
}
