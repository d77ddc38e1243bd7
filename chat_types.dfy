/** Values the chat store holds and exchanges with its two transports: the
    roster entries, the messages, the outcome of a request and what the store
    reports to the user when a request fails. */
module ChatTypes {

  datatype Option<+T> = None | Some(value: T)

  /** The settled outcome of one request/response call: the response body on
      success, the rejection on failure. */
  datatype Result<+T, +E> = Ok(value: T) | Err(error: E)

  /** A user's `_id`; the store only ever compares ids for equality. */
  type UserId = string

  /** An entry of the roster (`users`) and the value of `selectedUser`. */
  datatype User = User(id: UserId, fullName: string, profilePic: string)

  /** A message as the server returns it from a send or a history fetch, and
      as the push channel delivers it. `sentAt` is the sender's timestamp in
      milliseconds, present when the sender attached one. */
  datatype Message = Message(id: string, senderId: UserId, content: string, sentAt: Option<int>)

  /** What the caller passes to `sendMessage` (`messageData`). */
  datatype Draft = Draft(content: string)

  /** The body posted to the send endpoint: the draft with the send time added. */
  datatype SendBody = SendBody(content: string, sentAt: int)

  /** `error.response.data`: the JSON body of a failed response, which may
      lack a `message` field. */
  datatype ErrorData = ErrorData(message: Option<string>)

  /** `error.response`: present when the server answered, possibly without a body. */
  datatype ErrorResponse = ErrorResponse(data: Option<ErrorData>)

  /** A rejected request. `response` is absent for a network failure and for a
      `TypeError` raised inside the `try` block. */
  datatype RequestError = RequestError(response: Option<ErrorResponse>)

  /** What an operation shows or raises when it settles: nothing, an error
      toast (whose argument may be `undefined`), or an exception that escapes
      the operation. */
  datatype Report = Silent | Toast(text: Option<string>) | Thrown

  const MessagesFallback: string := "Error fetching messages"
  const SendFallback: string := "Error sending message"

  /** `error.response?.data?.message`: the server's message, absent as soon as
      any link of the chain is missing. */
  function ServerMessage(e: RequestError): (r: Option<string>)
    ensures r.None? <==> e.response.None? || e.response.value.data.None? || e.response.value.data.value.message.None?
    ensures r.Some? ==> Some(r.value) == e.response.value.data.value.message
  {
    match e.response
    case None => None
    case Some(resp) =>
      match resp.data
      case None => None
      case Some(d) => d.message
  }

  /** `error.response?.data?.message || fallback`: the server's message when
      it is a non-empty string (the empty string is falsy), the fallback
      otherwise. Whatever the error looks like, the text is never empty. */
  function ToastText(e: RequestError, fallback: string): (r: string)
    requires fallback != ""
    ensures r != ""
    ensures r == fallback || ServerMessage(e) == Some(r)
    ensures ServerMessage(e).Some? && ServerMessage(e).value != "" ==> r == ServerMessage(e).value
  {
    match ServerMessage(e)
    case Some(msg) => if msg != "" then msg else fallback
    case None => fallback
  }

  /** What `getUsers` reports on a failed fetch: `error.response.data.message`
      is read WITHOUT optional chaining, so a missing `response` or `data`
      raises inside the `catch` block and the operation rejects; otherwise
      the toast gets the message, `undefined` when the body has none. */
  function UsersFailureReport(e: RequestError): (r: Report)
    ensures r != Silent
    ensures r == Thrown <==> e.response.None? || e.response.value.data.None?
    ensures r.Toast? ==> r.text == ServerMessage(e)
  {
    match e.response
    case None => Thrown
    case Some(resp) =>
      match resp.data
      case None => Thrown
      case Some(d) => Toast(d.message)
  }
}
