/**
 * The two records the HTTP layer sends back: `ApiError`, thrown by the
 * services and turned into an error body, and `ApiResponse`, the success
 * envelope. A JavaScript default parameter applies when the argument is
 * `undefined`, modelled as `None`.
 */
module ApiRecords {
  import opened Common

  /** An `ApiError`; `data` is JavaScript `null` in every instance. */
  datatype ApiError = ApiError(
    status: int,
    message: string,
    success: bool,
    errors: seq<string>,
    data: Option<string>)

  const DefaultErrorMessage: string := "Something went Wrong"

  /** `new ApiError(status, message, errors)`; the stack argument is left out. */
  function NewApiError(status: int, message: Option<string>, errors: Option<seq<string>>): (e: ApiError)
    ensures e.status == status
    ensures message.Some? ==> e.message == message.value
    ensures message.None? ==> e.message == DefaultErrorMessage
    ensures errors.Some? ==> e.errors == errors.value
    ensures errors.None? ==> e.errors == []
    ensures !e.success && e.data.None?
  {
    ApiError(
      status,
      if message.Some? then message.value else DefaultErrorMessage,
      false,
      if errors.Some? then errors.value else [],
      None)
  }

  /** `new ApiError(status, message)`, the form every service uses. */
  function Fail(status: int, message: string): (e: ApiError)
    ensures e == NewApiError(status, Some(message), None)
    ensures e.status == status && e.message == message && e.errors == [] && !e.success
  {
    ApiError(status, message, false, [], None)
  }

  /** An `ApiResponse` carrying a payload of type `T`. */
  datatype ApiResponse<T> = ApiResponse(status: int, message: string, success: bool, data: T)

  const DefaultResponseMessage: string := "Success"

  /** `new ApiResponse(status, data, message)`: `success` is `status < 400`. */
  function NewApiResponse<T>(status: int, data: T, message: Option<string>): (r: ApiResponse<T>)
    ensures r.status == status && r.data == data
    ensures r.success <==> status < 400
    ensures message.Some? ==> r.message == message.value
    ensures message.None? ==> r.message == DefaultResponseMessage
  {
    ApiResponse(status, if message.Some? then message.value else DefaultResponseMessage, status < 400, data)
  }
}
