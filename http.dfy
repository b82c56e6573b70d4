/** Requests to the backend and the errors axios raises for them. */
module Http {
  import opened Js

  datatype Verb = GET | POST | PATCH | DELETE

  /** A request as issued: verb, path below the backend's base URL, and the
      JSON body (`Undefined` when there is none). */
  datatype Request = Request(verb: Verb, path: string, body: JsValue)

  /** An axios error: `error.code`, `error.response?.status`, and the
      backend's `data.message`, `data.error` and `JSON.stringify(data)`
      (empty strings where absent). */
  datatype HttpError = HttpError(code: string, status: Option<int>, message: string, error: string, dataJson: string)

  predicate HasStatus(e: HttpError, status: int) {
    e.status == Some(status)
  }

  predicate IsNetworkError(e: HttpError) {
    e.code == "ERR_NETWORK"
  }

  /** How an API helper ends: with a value, by throwing `new Error(message)`,
      or by rethrowing the axios error it caught. */
  datatype Outcome<+T> = Done(value: T) | Raised(message: string) | Rethrown(cause: HttpError)

  /** A backend answer to one request. */
  datatype Response<+T> = Answer(data: T) | Failure(err: HttpError)

  /** One call of an API helper: the request it sent, if it got that far,
      and how it ended. */
  datatype Call<+T> = Call(request: Option<Request>, outcome: Outcome<T>)
}
