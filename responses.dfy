/** The saga's outward result and the assembly of a success payload. */
module Responses {
  import opened Wrappers
  import opened Ports

  /** The JSON body of a non-error response. */
  datatype Payload = Payload(
    message: Message,
    accountStatus: Status,
    oldCustomerId: string,
    newCustomerId: string,
    cookies: Cookies,
    location: Option<string>)  // None: the `location` key is not written

  /**
   * What the saga returns: the shared helper's authentication error carrying
   * a message (its status code belongs to that helper), or a status code with
   * a payload.
   */
  datatype Response =
    | AuthenticationError(errorMessage: Message)
    | Response(apiStatusCode: int, payload: Payload)

  /**
   * PrepareResponsePayload: a response with the given code whose body carries
   * the given fields; an empty old customer id is rendered "-", and the
   * location is written only when it is present and non-empty.
   */
  function PrepareResponsePayload(
    message: Message, status: Status, newCustomerId: string, oldCustomerId: string,
    cookies: Cookies, statusCode: int, location: Option<string>): (r: Response)
    ensures r.Response? && r.apiStatusCode == statusCode
    ensures r.payload.message == message && r.payload.accountStatus == status
    ensures r.payload.newCustomerId == newCustomerId && r.payload.cookies == cookies
    ensures r.payload.oldCustomerId != ""
    ensures oldCustomerId != "" ==> r.payload.oldCustomerId == oldCustomerId
    ensures oldCustomerId == "" ==> r.payload.oldCustomerId == "-"
    ensures r.payload.location.Some? <==> location.Some? && location.value != ""
    ensures r.payload.location.Some? ==> r.payload.location == location
  {
    var shownOldId := if oldCustomerId == "" then "-" else oldCustomerId;
    var shownLocation := if location.Some? && location.value != "" then location else None;
    Response(statusCode, Payload(message, status, shownOldId, newCustomerId, cookies, shownLocation))
  }
}
