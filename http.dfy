/**
 * The shapes of HTTP exchanges as the axios client hands them to the
 * interceptors in frontend/src/lib/api.ts and to the catch blocks in
 * frontend/src/contexts/AuthContext.tsx. The transport itself is not modelled.
 */
module Http {
  import opened Wrappers

  /** Header names to values, as axios delivers them (response header names in lower case). */
  type Headers = map<string, string>

  /** The JSON body of an error response; only its `message` is ever read. */
  datatype ErrorBody = ErrorBody(message: Option<string>)

  /** `error.response` of an AxiosError: the status and the decoded body, if any. */
  datatype ErrorResponse = ErrorResponse(status: int, data: Option<ErrorBody>)

  /**
   * A rejected request. `Axios` is an `AxiosError` (its `response` is absent
   * for a network failure); `NonAxios` is any other thrown value.
   */
  datatype Failure = Axios(response: Option<ErrorResponse>) | NonAxios(description: string)

  /** `error.response?.status` */
  function Status(error: Failure): (r: Option<int>)
    ensures r.Some? <==> error.Axios? && error.response.Some?
  {
    if error.Axios? && error.response.Some? then Some(error.response.value.status) else None
  }

  /** `error.response?.data?.message` */
  function ServerMessage(error: Failure): (r: Option<string>)
    ensures r.Some? ==> error.Axios? && error.response.Some? && error.response.value.data.Some?
  {
    if error.Axios? && error.response.Some? && error.response.value.data.Some?
    then error.response.value.data.value.message
    else None
  }
}
