/** app/api/_utils.ts: the JSON envelope every API route answers with. */
module Api {
  datatype Envelope<T> = Success(data: T) | Failure(error: string)

  datatype Response<T> = Response(status: int, body: Envelope<T>)

  /** `jsonOk(data)`: `{ ok: true, data }` with the default status 200. */
  function JsonOk<T>(data: T): (r: Response<T>)
    ensures r.status == 200 && r.body.Success? && r.body.data == data
  {
    Response(200, Success(data))
  }

  /** `jsonError(message, status)`: `{ ok: false, error: message }`; the
      status is 400 unless the caller names another. */
  function JsonError<T>(message: string, status: int := 400): (r: Response<T>)
    ensures r.status == status && r.body.Failure? && r.body.error == message
  {
    Response(status, Failure(message))
  }
}
