/** The payload and envelope records of server/models.go. */
module Models {
  import opened Results

  /** `event.bot_profile`: present, with a name, when a bot wrote the message. */
  datatype BotProfile = BotProfile(name: string)

  /** The inner `event` object of an Events API payload. */
  datatype EventBody = EventBody(eventType: string, text: string, user: string, channel: string,
                                 botProfile: BotProfile, tab: string, threadTS: string)

  /** An Events API payload, as decoded from the request body. */
  datatype SlackEvent = SlackEvent(eventType: string, token: string, challenge: string, teamID: string,
                                   event: EventBody, eventID: string)

  /** The JSON error envelope every failing handler replies with. */
  datatype HttpError = HttpError(message: string, error: string)

  /** Builds the envelope; the detail is the error's text, or empty when there is no error. */
  function NewHttpError(message: string, err: Option<string>): (e: HttpError)
    ensures e.message == message
    ensures err.None? ==> e.error == ""
    ensures err.Some? ==> e.error == err.value
  {
    var he := HttpError(message, "");
    if err.Some? then he.(error := err.value) else he
  }

  /** A JSON object, as its members in order. */
  type JsonObject = seq<(string, string)>

  /** The member named `key` in `o`, or "" when there is none (the last one wins, as in Go's decoder). */
  function Member(o: JsonObject, key: string): string {
    if o == [] then ""
    else if o[|o| - 1].0 == key then o[|o| - 1].1
    else Member(o[..|o| - 1], key)
  }

  /** The serialised envelope: both fields carry `omitempty`, so an empty field is left out. */
  function Encode(e: HttpError): (o: JsonObject)
    ensures forall m :: m in o ==> m.1 != ""
    ensures (exists m :: m in o && m.0 == "message") <==> e.message != ""
    ensures (exists m :: m in o && m.0 == "error") <==> e.error != ""
  {
    (if e.message != "" then [("message", e.message)] else [])
    + (if e.error != "" then [("error", e.error)] else [])
  }

  /** Decoding into `httpError`: a missing member leaves its field empty. */
  function Decode(o: JsonObject): HttpError {
    HttpError(Member(o, "message"), Member(o, "error"))
  }

  /** Leaving out empty fields loses nothing: decoding the envelope gives it back. */
  lemma EnvelopeRoundTrip(e: HttpError)
    ensures Decode(Encode(e)) == e
  {
    var o := Encode(e);
    if e.message != "" && e.error != "" {
      assert o == [("message", e.message), ("error", e.error)];
      assert o[..1] == [("message", e.message)];
      assert Member(o, "message") == Member(o[..1], "message");
    } else if e.message != "" {
      assert o == [("message", e.message)];
      assert Member(o, "error") == Member([], "error");
    } else if e.error != "" {
      assert o == [("error", e.error)];
      assert Member(o, "message") == Member([], "message");
    }
  }
}
