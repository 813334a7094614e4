/** What a Next.js route handler hands back to the framework. */
module Http {

  /** The JSON bodies the routes answer with. */
  datatype Body =
    | ErrorBody(error: string)
    | TranscriptBody(transcript: string)
    | TranslatedBody(translated: string)

  /** A JSON response with its HTTP status, or a handler whose promise
      rejected because something threw outside its `try` block; the framework
      then answers with its own error page, which is not JSON. */
  datatype Outcome = Respond(status: nat, body: Body) | Rejected

  /** `NextResponse.json(body)` without an explicit status. */
  function Ok(body: Body): Outcome {
    Respond(200, body)
  }

  /** `NextResponse.json({ error: message }, { status: status })`. */
  function Fail(status: nat, message: string): Outcome {
    Respond(status, ErrorBody(message))
  }
}
