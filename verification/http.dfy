/**
 * The JSON shapes the service reads and writes: a field of a request or event
 * body, and the status code and JSON body of a response.
 */
module Http {
  import opened Records

  /** A key of a JSON object as `dict.get` sees it: absent, JSON `null`, or a string. */
  datatype Field = Missing | Null | Text(text: string)

  /** `obj.get(key, "")` followed by a truth test: true exactly for a non-empty string. */
  predicate Truthy(f: Field) {
    f.Text? && f.text != ""
  }

  /**
   * `obj.get(key, "")` where the value is only passed on to a truth test
   * (`if x:`): a missing key, a JSON `null` and `""` all behave as `""`.
   */
  function TextOrEmpty(f: Field): (s: string)
    ensures f.Text? ==> s == f.text
    ensures !f.Text? ==> s == ""
    ensures s != "" <==> Truthy(f)
  {
    if f.Text? then f.text else ""
  }

  /** The JSON body of a response. */
  datatype Body =
    | Received                                // {"received": true}
    | Error(error: string)                    // {"error": ...}
    | Message(message: string)                // {"message": ...}
    | Customers(rows: Table)                  // the customer table as a JSON list
    | Readiness(ready: bool, status: string)  // {"ready": ..., "status": ...}
    | FrameworkError                          // the framework's own error page, not JSON

  datatype Response = Response(code: int, body: Body)

  /** What the framework answers when a handler raises. */
  const Crashed := Response(500, FrameworkError)

  /** What the framework answers when `get_json(force=True)` cannot parse the body. */
  const BadRequest := Response(400, FrameworkError)
}
