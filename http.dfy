/** What a serverless handler writes to its response object. */
module Http {
  import opened Wrappers

  /** The body a handler ends the response with. */
  datatype Payload =
    | NoBody                                  // `res.status(s).end()`
    | Text(text: string)                      // `res.end(text)`
    | JsonText(text: string)                  // an already serialised JSON document
    | ErrorJson(error: string)                // `res.json({ error })`
    | OkJson                                  // `res.json({ ok: true })`
    | OkWithId(id: Option<string>)            // `res.json({ ok: true, id })`

  datatype Response = Response(status: int, headers: map<string, string>, payload: Payload)
}
