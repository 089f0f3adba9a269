/** `ApiResponseDto`: the envelope every endpoint answers with. */
module ApiResponse {
  import opened Base

  /** The envelope: a success flag, an optional message, optional data and
      an optional error text. */
  datatype ApiResponse<+T> = ApiResponse(success: bool, message: NString, data: Option<T>, error: NString)

  /** `success(data)`: a successful response carrying `data` and nothing else. */
  function Success<T>(data: Option<T>): (r: ApiResponse<T>)
    ensures r.success && r.data == data && r.message.None? && r.error.None?
  {
    ApiResponse(true, None, data, None)
  }

  /** `success(data, message)`: a successful response with data and message. */
  function SuccessWith<T>(data: Option<T>, message: NString): (r: ApiResponse<T>)
    ensures r.success && r.data == data && r.message == message && r.error.None?
  {
    ApiResponse(true, message, data, None)
  }

  /** `error(error)`: a failed response carrying the error text and nothing else. */
  function Failure<T>(error: NString): (r: ApiResponse<T>)
    ensures !r.success && r.error == error && r.data.None? && r.message.None?
  {
    ApiResponse(false, None, None, error)
  }

  /** `error(error, message)`: a failed response with error text and message. */
  function FailureWith<T>(error: NString, message: NString): (r: ApiResponse<T>)
    ensures !r.success && r.error == error && r.message == message && r.data.None?
  {
    ApiResponse(false, message, None, error)
  }

  /** No factory produces a failed response with data or a successful one
      with an error. */
  lemma FactoriesAreDisjoint<T>(d: Option<T>, m: NString, e: NString)
    ensures Success(d) != Failure<T>(e) && SuccessWith(d, m) != FailureWith<T>(e, m)
    ensures Success(d) == SuccessWith(d, None) && Failure<T>(e) == FailureWith<T>(e, None)
  {
  }
}
