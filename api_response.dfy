/**
 * The API's response envelope: a success flag, an optional message, the
 * payload, and an optional list of error messages, built by two factories.
 */
module ApiResponses {
  import opened Wrappers

  datatype ApiResponse<T> = ApiResponse(
    success: bool,
    message: Option<string>,
    data: Option<T>,
    errors: Option<seq<string>>)

  /** SuccessResult(data, message = null) */
  function SuccessResult<T>(data: T, message: Option<string> := None): (r: ApiResponse<T>)
    ensures r.success && r.data == Some(data) && r.message == message && r.errors.None?
  {
    ApiResponse(true, message, Some(data), None)
  }

  /** ErrorResult(message, errors = null): the payload stays at its default. */
  function ErrorResult<T>(message: string, errors: Option<seq<string>> := None): (r: ApiResponse<T>)
    ensures !r.success && r.message == Some(message) && r.data.None? && r.errors == errors
  {
    ApiResponse(false, Some(message), None, errors)
  }

  /** The two factories never build the same response, and the Success flag tells which one built it. */
  lemma FactoriesAreDistinguishedBySuccess<T>(data: T, m1: Option<string>, m2: string, errors: Option<seq<string>>)
    ensures SuccessResult(data, m1) != ErrorResult<T>(m2, errors)
    ensures SuccessResult(data).message == None
    ensures SuccessResult(data, m1).success != ErrorResult<T>(m2, errors).success
  {
  }
}
