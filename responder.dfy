/** The two JSON envelopes every catalog, cart, order and payment handler answers with. */
module Responder {
  import opened Js

  const DefaultSuccessStatus := 200
  const DefaultErrorStatus := 500

  /** `data` of a success envelope: the given value, or `{}` when the caller passes none. */
  datatype Payload<+T> = EmptyObject | Data(value: T)

  datatype Body<+T> =
    | SuccessBody(message: string, data: Payload<T>)
    | ErrorBody(error: string)

  datatype Response<+T> = Response(status: int, body: Body<T>) {
    predicate Success() { body.SuccessBody? }
  }

  /** The keys of the JSON object the envelope serialises to. */
  function Keys<T>(r: Response<T>): set<string> {
    if r.body.SuccessBody? then {"success", "message", "data"} else {"success", "error"}
  }

  /** The value of the envelope's `success` key. */
  function SuccessFlag<T>(r: Response<T>): bool {
    r.body.SuccessBody?
  }

  /** `successResponse(res, message, data = {}, status = 200)`. */
  function SuccessResponse<T>(message: string, data: Option<T>, status: Option<int>): (r: Response<T>)
    ensures SuccessFlag(r) && Keys(r) == {"success", "message", "data"}
    ensures r.body.message == message
    ensures r.body.data == (if data.Some? then Data(data.value) else EmptyObject)
    ensures status.Some? ==> r.status == status.value
    ensures status.None? ==> r.status == DefaultSuccessStatus
  {
    Response(if status.Some? then status.value else DefaultSuccessStatus,
             SuccessBody(message, if data.Some? then Data(data.value) else EmptyObject))
  }

  /** `errorResponse(res, error, status = 500)`: no `message` key, the text goes under `error`. */
  function ErrorResponse<T>(error: string, status: Option<int>): (r: Response<T>)
    ensures !SuccessFlag(r) && "message" !in Keys(r) && "error" in Keys(r)
    ensures r.body.error == error
    ensures status.Some? ==> r.status == status.value
    ensures status.None? ==> r.status == DefaultErrorStatus
  {
    Response(if status.Some? then status.value else DefaultErrorStatus, ErrorBody(error))
  }

  /** Shorthands for the calls the handlers make with every argument given. */
  function Ok<T>(message: string, data: T, status: int): (r: Response<T>)
    ensures r.Success() && r.status == status && r.body.data == Data(data)
  {
    SuccessResponse(message, Some(data), Some(status))
  }

  function Fail<T>(error: string, status: int): (r: Response<T>)
    ensures !r.Success() && r.status == status && r.body.error == error
  {
    ErrorResponse(error, Some(status))
  }

  /** A handler's `catch` block: the thrown error's message with status 500. */
  function Crash<T>(error: string): (r: Response<T>)
    ensures !r.Success() && r.status == 500 && r.body.error == error
  {
    ErrorResponse(error, None)
  }
}
