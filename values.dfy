/** Values the client passes around: optional arguments with Python's notion of
    truthiness, the JSON documents the service returns, and the errors its
    operations raise. */
module Values {

  /** An argument that may be `None`. */
  datatype Option<+T> = None | Some(value: T)

  /** A string argument is truthy when it is present and non-empty: `None` and
      `""` both count as "not supplied" in a Python `if` or `or`. */
  predicate Truthy(s: Option<string>) {
    s.Some? && s.value != ""
  }

  /** The test `x in (a, b, ..., None)`: `x` is absent or one of `allowed`. */
  predicate AbsentOrIn(x: Option<string>, allowed: seq<string>) {
    x.None? || x.value in allowed
  }

  /** A decoded JSON document. Numbers are kept as integers: the client never
      looks inside one. */
  datatype Json =
    | JNull
    | JBool(b: bool)
    | JNum(n: int)
    | JStr(s: string)
    | JArr(items: seq<Json>)
    | JObj(fields: map<string, Json>)

  /** `d.get(key, None)`: the value under `key`, or null when the key is missing.
      Python's `None` and JSON's `null` are the same value once decoded. */
  function GetOrNull(fields: map<string, Json>, key: string): (v: Json)
    ensures key in fields ==> v == fields[key]
    ensures key !in fields ==> v == JNull
  {
    if key in fields then fields[key] else JNull
  }

  /** The `assert` statements the client runs before contacting the service. */
  datatype Check =
    | IncludeFilter       // get_draftsets: include is owned, claimable or all
    | DraftsetType        // Draftset: type is Endpoint or Draftset
    | SubmitRole          // submit_to: role is editor, publisher, manager or None
    | SingleRecipient     // submit_to: exactly one of role and user
    | FormatGiven         // append_data: extension or content type supplied
    | KnownExtension      // append_data: extension is listed or None
    | KnownContentType    // append_data: content type is listed or None
    | GraphForTriples     // append_data: a graph accompanies a triple format
    | KnownEncoding       // append_data: encoding is gzip, x-gzip or None

  /** The exceptions an operation can raise. */
  datatype Error =
    | AssertionFailed(check: Check)  // an `assert` of the client failed
    | KeyMissing(key: string)        // `d[key]` on a JSON object without that key
    | NotSubscriptable               // `d[key]` on a JSON value that is not an object
    | NotIterable                    // iterating over a JSON scalar
    | NotJson                        // the response body is not a JSON document
    | RequestFailed(body: string)    // an unexpected status; carries the body verbatim

  datatype Result<+T> = Ok(value: T) | Err(error: Error)

  /** An operation that returns nothing or raises. */
  datatype Outcome = Pass | Fail(error: Error)
}
