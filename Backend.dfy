/** The remote REST backend as the client sees it: the requests it is sent and
    the replies it gives. What the backend does with a request is not modelled;
    a reply is an input to every operation that issues a request. */
module Backend {
  import opened Options

  /** A JSON object sent as a request body (`JSON.stringify` of it). */
  type Payload = map<string, string>

  /** The `user` object of an auth response. */
  datatype User = User(id: string, name: string, email: string)

  /** A parsed response body. `success` is the truthiness of `data.success`;
      a missing `token`, `message` or `user` is None; `rest` stands for every
      other field (the event lists and records), which the client passes on
      without looking at. */
  datatype Body = Body(
    success: bool,
    token: Option<string>,
    message: Option<string>,
    user: Option<User>,
    rest: map<string, string>)

  /** What awaiting `fetch(...)` and then `response.json()` gives: a status
      flag (`response.ok`) and a parsed body, or a thrown error (the network
      failed or the body was not JSON) with its message. */
  datatype Reply = Answered(ok: bool, body: Body) | Failed(reason: string)

  datatype Verb = GET | POST | PUT | DELETE

  /** One request issued by `fetch`. `path` is the part after the API base URL. */
  datatype Request = Request(verb: Verb, path: string, headers: map<string, string>, body: Option<Payload>)

  const JsonHeaders: map<string, string> := map["Content-Type" := "application/json"]

  /** A `POST` of a JSON body to `path`, as `register`, `login` and the
      sign-in callbacks send it: the JSON content type, no credential. */
  function JsonPost(path: string, payload: Payload): (req: Request)
    ensures req.verb == POST && req.path == path && req.body == Some(payload)
    ensures req.headers == JsonHeaders && "Authorization" !in req.headers
  {
    Request(POST, path, JsonHeaders, Some(payload))
  }
}
