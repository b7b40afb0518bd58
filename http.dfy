/** Values exchanged between the product client and the remote product service:
    JSON bodies, multipart fields, requests, axios errors and replies. The transport
    itself is not modelled; a reply is an input chosen by the environment. */
module Http {

  datatype Option<T> = None | Some(value: T)

  /** A JSON value as the browser parses a response body (numbers kept integral). */
  datatype Json =
    | JNull
    | JBool(b: bool)
    | JNumber(n: int)
    | JString(s: string)
    | JArray(items: seq<Json>)
    | JObject(members: seq<(string, Json)>)

  /** An uploaded image file; its `size` is its length in bytes. */
  datatype Image = Image(bytes: seq<bv8>) {
    function Size(): nat { |bytes| }
  }

  /** A value appended to a FormData buffer: a string or a file. */
  datatype FormValue = TextValue(text: string) | FileValue(image: Image)

  type FormField = (string, FormValue)

  datatype Verb = Get | Post | Put | Delete

  datatype Body = NoBody | Multipart(fields: seq<FormField>)

  /** An axios request configuration; `retry` is the `_retry` tag. */
  datatype Request = Request(verb: Verb, path: string, body: Body, retry: bool)

  /** `error.response` of an axios error: the HTTP status and `data.detail`. */
  datatype ErrorResponse = ErrorResponse(status: int, detail: Option<string>)

  /** An axios error: `code`, `response` and `message`, each possibly absent. */
  datatype ApiError = ApiError(code: Option<string>, response: Option<ErrorResponse>, message: Option<string>)

  /** The outcome of one network exchange: a response received at time `at`
      (milliseconds, the value `Date.now()` would give) or an error. */
  datatype Reply = Success(at: int, data: Json) | Failure(error: ApiError)

  /** What a `productAPI` operation gives its caller: a value, or the rejection. */
  datatype Result<T> = Ok(value: T) | Err(error: ApiError)

  /** `error.response?.status`, with "no response" as None. */
  function StatusOf(e: ApiError): Option<int>
  {
    if e.response.Some? then Some(e.response.value.status) else None
  }

  /** JavaScript truthiness of an optional string: absent and "" are both falsy. */
  predicate Truthy(s: Option<string>)
  {
    s.Some? && s.value != ""
  }

  /** `a || b` where `a` is an optional string and `b` a string. */
  function OrElse(a: Option<string>, b: string): string
  {
    if Truthy(a) then a.value else b
  }
}
