/** `ApiError` (src/lib/ApiError.ts): the error value every handler throws or
    returns, and the JSON object a client receives for it. */
module ApiErrors {
  import opened Base
  import opened JsValues

  /** The unit type standing for the `data: null` field: it has one value. */
  datatype NullData = NullData

  datatype ApiError = ApiError(
    statusCode: int,
    message: string,
    errors: seq<string>,
    data: NullData,
    success: bool)

  const DefaultMessage: string := "Something went wrong"

  /** `new ApiError(statusCode, message?, errors?)`: the status and message are
      stored exactly as passed, the error list defaults to empty, and every
      error is marked unsuccessful with null data. */
  function NewApiError(statusCode: int, message: string := DefaultMessage, errors: seq<string> := []): (e: ApiError)
    ensures e.statusCode == statusCode && e.message == message && e.errors == errors
    ensures WellFormed(e)
  {
    ApiError(statusCode, message, errors, NullData, false)
  }

  /** What every constructed `ApiError` satisfies. */
  predicate WellFormed(e: ApiError) {
    !e.success && e.data == NullData
  }

  /** Leaving out the optional arguments gives the default message and no errors. */
  lemma DefaultArguments(statusCode: int)
    ensures NewApiError(statusCode).message == "Something went wrong"
    ensures NewApiError(statusCode).errors == []
    ensures NewApiError(statusCode) == NewApiError(statusCode, DefaultMessage, [])
  {
  }

  function StringsToJson(xs: seq<string>): (r: seq<JsValue>)
    ensures |r| == |xs| && forall i :: 0 <= i < |xs| ==> r[i] == Str(xs[i])
  {
    seq(|xs|, i requires 0 <= i < |xs| => Str(xs[i]))
  }

  /** `JSON.stringify(err)` as the code is written: only enumerable own
      properties are serialised, and the `message` that `super(message)`
      installs on an `Error` is not enumerable, so it is dropped. */
  function ToJsonAsWritten(e: ApiError): (j: JsValue)
    ensures j.Obj? && "message" !in j.fields
    ensures j.fields.Keys == {"statusCode", "errors", "data", "success"}
  {
    Obj(map[
      "statusCode" := Num(e.statusCode as real),
      "errors" := Arr(StringsToJson(e.errors)),
      "data" := JsValues.Null,
      "success" := Bool(e.success)])
  }

  /** What a client reads back from the as-written body: the status, the
      error list, `null` data and `success: false`. */
  lemma AsWrittenFields(e: ApiError)
    requires WellFormed(e)
    ensures GetProperty(ToJsonAsWritten(e), "statusCode") == Value(Num(e.statusCode as real))
    ensures GetProperty(ToJsonAsWritten(e), "errors") == Value(Arr(StringsToJson(e.errors)))
    ensures GetProperty(ToJsonAsWritten(e), "data") == Value(JsValues.Null)
    ensures GetProperty(ToJsonAsWritten(e), "success") == Value(Bool(false))
  {
  }

  /** The envelope the handlers evidently mean to send: the same fields plus
      the message. */
  function ToJson(e: ApiError): (j: JsValue)
    ensures j.Obj? && "message" in j.fields
  {
    var base := ToJsonAsWritten(e);
    Obj(base.fields["message" := Str(e.message)])
  }

  /** As written, a client reading `result.message` from an error response
      always reads `undefined`, whatever message the handler chose. */
  lemma AsWrittenLosesMessage(e: ApiError)
    ensures GetProperty(ToJsonAsWritten(e), "message") == Value(Undefined)
  {
  }

  /** With the message serialised, the client reads back exactly the handler's
      message, and every field of the as-written envelope is kept. */
  lemma ToJsonCarriesMessage(e: ApiError)
    ensures GetProperty(ToJson(e), "message") == Value(Str(e.message))
    ensures forall k :: k in ToJsonAsWritten(e).fields ==>
              GetProperty(ToJson(e), k) == GetProperty(ToJsonAsWritten(e), k)
  {
  }
}
