/** The schema step the authentication routes run first. The schemas
    themselves (lib/validator.ts) are not part of this model: each is an
    abstract function from the parsed body to a `SafeParse` result. */
module Validation {
  import opened JsValues
  import opened ApiErrors
  import opened Http

  /** The messages a schema reports for one field. */
  datatype FieldErrors = FieldErrors(field: string, messages: seq<string>)

  /** `schema.safeParse(body)`: the typed data, or the field errors in the
      order `flatten().fieldErrors` lists them. */
  datatype SafeParse<T> = Parsed(data: T) | Rejected(fieldErrors: seq<FieldErrors>)

  type Schema<T> = JsValue -> SafeParse<T>

  /** `Object.values(fieldErrors).flat()`: every message of every field, field
      by field, in order. */
  function FlatMessages(fe: seq<FieldErrors>): (r: seq<string>)
    ensures forall i, m :: 0 <= i < |fe| && m in fe[i].messages ==> m in r
    ensures forall m :: m in r ==> exists i :: 0 <= i < |fe| && m in fe[i].messages
    ensures fe == [] ==> r == []
    ensures |fe| == 1 ==> r == fe[0].messages
  {
    if fe == [] then []
    else
      var rest := FlatMessages(fe[1..]);
      fe[0].messages + rest
  }

  /** Flattening keeps field order and every message, duplicates included:
      the messages of a concatenation are the two lists one after the other. */
  lemma {:induction false} FlatMessagesAppend(a: seq<FieldErrors>, b: seq<FieldErrors>)
    ensures FlatMessages(a + b) == FlatMessages(a) + FlatMessages(b)
  {
    if a == [] {
      assert a + b == b;
    } else {
      assert (a + b)[1..] == a[1..] + b;
      FlatMessagesAppend(a[1..], b);
    }
  }

  /** Two fields reporting the same message give it twice. */
  lemma FlatMessagesKeepsDuplicates(m: string)
    ensures FlatMessages([FieldErrors("email", [m]), FieldErrors("password", [m])]) == [m, m]
  {
    FlatMessagesAppend([FieldErrors("email", [m])], [FieldErrors("password", [m])]);
    assert [FieldErrors("email", [m])] + [FieldErrors("password", [m])]
        == [FieldErrors("email", [m]), FieldErrors("password", [m])];
  }

  const ValidationFailed: string := "Validation failed"

  /** Lines 17-22 of both authentication routes: a rejected body throws
      `ApiError(400, "Validation failed", messages)`. */
  function Validate<T>(p: SafeParse<T>): (r: Result<T>)
    ensures p.Parsed? ==> r == Ok(p.data)
    ensures p.Rejected? ==> r == Throw(NewApiError(400, ValidationFailed, FlatMessages(p.fieldErrors)))
  {
    match p
    case Parsed(d) => Ok(d)
    case Rejected(fe) => Throw(NewApiError(400, ValidationFailed, FlatMessages(fe)))
  }
}
