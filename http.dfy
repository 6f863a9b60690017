/** What a handler writes back to its HTTP caller, and the decoded query or form values it reads. */
module Http {
  import opened Models

  const StatusOK := 200
  const StatusFound := 302
  const StatusBadRequest := 400
  const StatusNotFound := 404
  const StatusInternalServerError := 500

  /** The body of a reply. A handler that writes nothing answers 200 with `NoBody`. */
  datatype Body =
    | NoBody
    | Raw(text: string)
    | Json(envelope: HttpError)
    | Redirect(location: string)

  datatype Response = Response(status: int, body: Body)

  /** `writeJsonResponse` with an error envelope. */
  function JsonReply(status: int, e: HttpError): (r: Response)
    ensures r.status == status && r.body == Json(e)
  {
    Response(status, Json(e))
  }

  /** Decoded `application/x-www-form-urlencoded` data: each key with its values in order. */
  type Values = map<string, seq<string>>

  /** Go's `url.Values.Get`: the first value given for `key`, or "" when there is none. */
  function Get(values: Values, key: string): (v: string)
    ensures v != "" ==> key in values && |values[key]| > 0 && v == values[key][0]
    ensures key in values && |values[key]| > 0 ==> v == values[key][0]
  {
    if key in values && |values[key]| > 0 then values[key][0] else ""
  }
}
