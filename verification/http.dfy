/** The request and response shapes the route handlers share, the exceptions
    they can raise, and the two ways their `catch` blocks end a request. */
module Http {
  import opened Base
  import opened JsValues
  import opened ApiErrors
  import opened Cookies

  /** The parts of a URL the route guard can see; a redirect clones it. */
  datatype Url = Url(origin: string, pathname: string, search: string, hash: string)

  /** A request body: `req.json()` either parses it or throws a SyntaxError. */
  datatype RequestBody = Unparsable | Json(value: JsValue)

  /** An inbound request; `cookies` is the name-to-value map of its `Cookie` header. */
  datatype Request = Request(url: Url, cookies: map<string, string>, body: RequestBody)

  /** `new ApiResponse(statusCode, data, message?)`; `None` stands for an
      omitted message. lib/ApiResponse.ts is not part of this model. */
  datatype ApiResponse<D> = ApiResponse(statusCode: int, data: D, message: Option<string>)

  datatype Body<D> =
    | Success(payload: ApiResponse<D>)
    | Failure(error: ApiError)
    | Message(text: string)

  /** A `Set-Cookie` header: built by the cookie library from attributes, or
      written out literally. */
  datatype SetCookie = Serialized(attrs: CookieAttrs) | Literal(header: string)

  datatype Response<D> = Response(status: int, body: Body<D>, setCookie: Option<SetCookie>)

  /** How a handler ends: it returns a response, or it throws out of the
      handler and leaves the framework to answer. */
  datatype Outcome<D> = Returned(response: Response<D>) | Thrown(error: ApiError)

  /** What a `try` block can throw: an `ApiError`, or anything else (a JSON
      SyntaxError, a TypeError, an error from a library). */
  datatype Exception = Raised(error: ApiError) | Foreign(name: string)

  /** The value of a `try` block: its result, or what it threw. */
  datatype Result<+T> = Ok(value: T) | Err(exception: Exception) {
    predicate IsFailure() {
      Err?
    }

    function PropagateFailure<U>(): Result<U>
      requires Err?
    {
      Err(exception)
    }

    function Extract(): T
      requires Ok?
    {
      value
    }
  }

  /** `throw new ApiError(...)`. */
  function Throw<T>(e: ApiError): Result<T> {
    Err(Raised(e))
  }

  /** `await req.json()`. */
  function ReadJson(body: RequestBody): (r: Result<JsValue>)
    ensures r.Ok? <==> body.Json?
    ensures r.Ok? ==> r.value == body.value
    ensures r.Err? ==> r.exception.Foreign?
  {
    match body
    case Json(v) => Ok(v)
    case Unparsable => Err(Foreign("SyntaxError"))
  }

  /** `const { key } = v`, which throws a TypeError on `null` and `undefined`. */
  function ReadProperty(v: JsValue, key: string): Result<JsValue> {
    match GetProperty(v, key)
    case Value(x) => Ok(x)
    case TypeError => Err(Foreign("TypeError"))
  }

  const InternalServerError: string := "Internal server error"

  /** The `catch` block of the authentication routes: an `ApiError` is sent
      with its own status; anything else becomes a 500. */
  function CatchAuth<D>(r: Result<Response<D>>): (resp: Response<D>)
    ensures r.Ok? ==> resp == r.value
    ensures r.Err? && r.exception.Raised? ==>
              resp == Response(r.exception.error.statusCode, Failure(r.exception.error), None)
    ensures r.Err? && r.exception.Foreign? ==>
              resp == Response(500, Failure(NewApiError(500, InternalServerError)), None)
  {
    match r
    case Ok(resp) => resp
    case Err(Raised(e)) => Response(e.statusCode, Failure(e), None)
    case Err(Foreign(_)) => Response(500, Failure(NewApiError(500, InternalServerError)), None)
  }
}
