/** Values at the boundary between the pages and the browser: optional values,
    the outcome of an awaited network call, router navigations and dialogs. */
module Web {

  datatype Option<+T> = None | Some(value: T) {
    function GetOr(default: T): T {
      match this
      case Some(v) => v
      case None => default
    }
  }

  /** The outcome of an awaited `fetch` (and, where the code reads it, of the
      awaited `res.json()`): the promise rejected with an error whose `message`
      is given, or a response arrived with its `ok` flag and its decoded body. */
  datatype Fetched<+T> = Threw(message: string) | Answered(ok: bool, body: T)

  /** A decoded JSON value; numbers are kept to integers. */
  datatype Json =
    | JNull
    | JBool(b: bool)
    | JNumber(n: int)
    | JString(s: string)
    | JArray(items: seq<Json>)
    | JObject(fields: map<string, Json>)

  /** A call on the Next.js router. */
  datatype Navigation = Push(path: string) | Replace(path: string)

  /** `err.message || fallback`: an error without a message (or with an empty
      one) shows the fallback text. */
  function ErrorText(message: string, fallback: string): (text: string)
    ensures message != "" ==> text == message
    ensures message == "" ==> text == fallback
    ensures fallback != "" ==> text != ""
  {
    if message == "" then fallback else message
  }

  /** JavaScript truthiness of a `string | null` cell: null and "" are falsy. */
  predicate Truthy(s: Option<string>) {
    s.Some? && s.value != ""
  }
}
