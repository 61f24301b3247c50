/** The API helper module: a single-slot token store in `localStorage`, and
    one helper per backend operation. Protected helpers refuse to issue a
    request without a token; every helper turns a non-OK reply into an error
    whose text is the body's `message` or a fixed fallback. */
module Api {
  import opened Options
  import opened Text
  import opened Backend

  const NoTokenMessage := "No token found"
  const AuthRequiredMessage := "Authentication required"

  /** `data.message || fallback`: the text of the error a non-OK reply raises. */
  function ErrorText(message: Option<string>, fallback: string): (text: string)
    ensures Truthy(message) ==> text == message.value
    ensures !Truthy(message) ==> text == fallback
    ensures fallback != "" ==> text != ""
  {
    if Truthy(message) then message.value else fallback
  }

  /** What a helper does with the reply to the request it issued: an OK reply
      gives the parsed body unchanged; a non-OK reply gives an error with
      `ErrorText`; a thrown error is rethrown as it is. */
  function Settle(reply: Reply, fallback: string): (r: Result<Body>)
    ensures r.Ok? <==> reply.Answered? && reply.ok
    ensures r.Ok? ==> r.value == reply.body
    ensures reply.Answered? && !reply.ok ==> r == Err(ErrorText(reply.body.message, fallback))
    ensures reply.Failed? ==> r == Err(reply.reason)
  {
    match reply
    case Failed(reason) => Err(reason)
    case Answered(ok, data) => if ok then Ok(data) else Err(ErrorText(data.message, fallback))
  }

  /** Headers of a protected request: the JSON content type when the request
      has a body, and the bearer credential. */
  function AuthHeaders(token: string, json: bool): (headers: map<string, string>)
    ensures "Authorization" in headers && headers["Authorization"] == "Bearer " + token
    ensures json <==> "Content-Type" in headers
    ensures headers.Keys <= {"Authorization", "Content-Type"}
  {
    (if json then JsonHeaders else map[])["Authorization" := "Bearer " + token]
  }

  /** The `filters` argument of `getAll`; a missing field is None. */
  datatype Filters = Filters(category: Option<string>, search: Option<string>)

  /** One `name=value` pair appended to the query. */
  datatype Param = Param(name: string, value: string)

  function Names(params: seq<Param>): (names: seq<string>)
    ensures |names| == |params|
    ensures forall i :: 0 <= i < |params| ==> names[i] == params[i].name
  {
    seq(|params|, i requires 0 <= i < |params| => params[i].name)
  }

  /** The pairs `getAll` appends: `category` unless it is missing, empty or
      "All", then `search` unless it is missing or empty. */
  function QueryParams(filters: Filters): (params: seq<Param>)
    ensures "category" in Names(params) <==> Truthy(filters.category) && filters.category.value != "All"
    ensures "search" in Names(params) <==> Truthy(filters.search)
    ensures |params| <= 2
    ensures forall i :: 0 <= i < |params| ==> params[i].name in {"category", "search"}
    ensures params == [] <==> !(Truthy(filters.category) && filters.category.value != "All") && !Truthy(filters.search)
    ensures |params| == 2 ==> params[0].name == "category" && params[1].name == "search"
    ensures forall i :: 0 <= i < |params| && params[i].name == "category" ==> filters.category == Some(params[i].value)
    ensures forall i :: 0 <= i < |params| && params[i].name == "search" ==> filters.search == Some(params[i].value)
  {
    var addCategory := Truthy(filters.category) && filters.category.value != "All";
    var withCategory := if addCategory then [Param("category", filters.category.value)] else [];
    var withSearch :=
      if Truthy(filters.search) then withCategory + [Param("search", filters.search.value)] else withCategory;
    assert Names(withSearch) ==
      (if addCategory then ["category"] else []) + (if Truthy(filters.search) then ["search"] else []);
    withSearch
  }

  /** `URLSearchParams.toString()`: the pairs joined by "&", each written
      `name=value` after `encode`, the form-urlencoded percent-encoding of
      section 5.2 of the WHATWG URL Standard, taken here as a parameter. */
  function Serialize(params: seq<Param>, encode: string -> string): (query: string)
    ensures query == "" <==> params == []
  {
    if params == [] then ""
    else
      var pair := encode(params[0].name) + "=" + encode(params[0].value);
      assert '=' in pair;
      if |params| == 1 then pair else pair + "&" + Serialize(params[1..], encode)
  }

  /** The path `getAll` requests: "/api/events", followed by "?" and the
      query exactly when at least one pair was appended. */
  function EventsPath(filters: Filters, encode: string -> string): (path: string)
    ensures QueryParams(filters) == [] ==> path == "/api/events"
    ensures QueryParams(filters) != [] ==> path == "/api/events?" + Serialize(QueryParams(filters), encode)
  {
    var query := Serialize(QueryParams(filters), encode);
    "/api/events" + (if query != "" then "?" + query else "")
  }

  /** A category of "All" requests the same path as no category at all. */
  lemma AllCategoryIsNoCategory(search: Option<string>, encode: string -> string)
    ensures EventsPath(Filters(Some("All"), search), encode) == EventsPath(Filters(None, search), encode)
  {
    assert QueryParams(Filters(Some("All"), search)) == QueryParams(Filters(None, search));
  }

  /** The browser context of the helpers: whether `window` exists, the
      `localStorage` slot "token", and (ghost) every request issued so far. */
  class Client {
    const browser: bool
    var slot: Option<string>
    ghost var sent: seq<Request>

    constructor (hasWindow: bool, storedToken: Option<string>)
      ensures browser == hasWindow && slot == storedToken && sent == []
    {
      browser := hasWindow;
      slot := storedToken;
      sent := [];
    }

    /** `getAuthToken()`: the stored token, or null outside a browser. */
    function GetAuthToken(): (token: Option<string>)
      reads this
      ensures !browser ==> token == None
      ensures browser ==> token == slot
    {
      if browser then slot else None
    }

    /** `setAuthToken(token)`; does nothing outside a browser. */
    method SetAuthToken(token: string)
      modifies this`slot
      ensures slot == if browser then Some(token) else old(slot)
      ensures browser ==> GetAuthToken() == Some(token)
    {
      if browser {
        slot := Some(token);
      }
    }

    /** `removeAuthToken()`; does nothing outside a browser. */
    method RemoveAuthToken()
      modifies this`slot
      ensures slot == if browser then None else old(slot)
      ensures GetAuthToken() == None
    {
      if browser {
        slot := None;
      }
    }

    /** `authAPI.logout()`. */
    method Logout()
      modifies this`slot
      ensures slot == if browser then None else old(slot)
      ensures GetAuthToken() == None
    {
      RemoveAuthToken();
    }

    /** Store the token of an OK reply when it has a truthy one. */
    method KeepToken(reply: Reply)
      modifies this`slot
      ensures slot == if browser && reply.Answered? && reply.ok && Truthy(reply.body.token)
                      then Some(reply.body.token.value) else old(slot)
    {
      if reply.Answered? && reply.ok && Truthy(reply.body.token) {
        SetAuthToken(reply.body.token.value);
      }
    }

    /** `authAPI.register(userData)`. */
    method Register(userData: Payload, reply: Reply) returns (r: Result<Body>)
      modifies this
      ensures sent == old(sent) + [JsonPost("/api/auth/register", userData)]
      ensures r == Settle(reply, "Registration failed")
      ensures slot == if browser && r.Ok? && Truthy(r.value.token) then Some(r.value.token.value) else old(slot)
    {
      sent := sent + [JsonPost("/api/auth/register", userData)];
      r := Settle(reply, "Registration failed");
      KeepToken(reply);
    }

    /** `authAPI.login(credentials)`. */
    method Login(credentials: Payload, reply: Reply) returns (r: Result<Body>)
      modifies this
      ensures sent == old(sent) + [JsonPost("/api/auth/login", credentials)]
      ensures r == Settle(reply, "Login failed")
      ensures slot == if browser && r.Ok? && Truthy(r.value.token) then Some(r.value.token.value) else old(slot)
    {
      sent := sent + [JsonPost("/api/auth/login", credentials)];
      r := Settle(reply, "Login failed");
      KeepToken(reply);
    }

    /** `authAPI.getCurrentUser()`: protected, `GET /api/auth/me`. */
    method GetCurrentUser(reply: Reply) returns (r: Result<Body>)
      modifies this`sent
      ensures !Truthy(GetAuthToken()) ==> r == Err(NoTokenMessage) && sent == old(sent)
      ensures Truthy(GetAuthToken()) ==>
        sent == old(sent) + [Request(GET, "/api/auth/me", AuthHeaders(GetAuthToken().value, false), None)] &&
        r == Settle(reply, "Failed to get user")
    {
      var token := GetAuthToken();
      if !Truthy(token) {
        return Err(NoTokenMessage);
      }
      sent := sent + [Request(GET, "/api/auth/me", AuthHeaders(token.value, false), None)];
      r := Settle(reply, "Failed to get user");
    }

    /** `eventsAPI.getAll(filters)`: public, `GET /api/events[?query]`. */
    method GetAll(filters: Filters, encode: string -> string, reply: Reply) returns (r: Result<Body>)
      modifies this`sent
      ensures sent == old(sent) + [Request(GET, EventsPath(filters, encode), JsonHeaders, None)]
      ensures r == Settle(reply, "Failed to fetch events")
    {
      sent := sent + [Request(GET, EventsPath(filters, encode), JsonHeaders, None)];
      r := Settle(reply, "Failed to fetch events");
    }

    /** `eventsAPI.getById(id)`: public, `GET /api/events/:id`. */
    method GetById(id: string, reply: Reply) returns (r: Result<Body>)
      modifies this`sent
      ensures sent == old(sent) + [Request(GET, "/api/events/" + id, JsonHeaders, None)]
      ensures r == Settle(reply, "Failed to fetch event")
    {
      sent := sent + [Request(GET, "/api/events/" + id, JsonHeaders, None)];
      r := Settle(reply, "Failed to fetch event");
    }

    /** `eventsAPI.create(eventData)`: protected, `POST /api/events`. */
    method Create(eventData: Payload, reply: Reply) returns (r: Result<Body>)
      modifies this`sent
      ensures !Truthy(GetAuthToken()) ==> r == Err(AuthRequiredMessage) && sent == old(sent)
      ensures Truthy(GetAuthToken()) ==>
        sent == old(sent) + [Request(POST, "/api/events", AuthHeaders(GetAuthToken().value, true), Some(eventData))] &&
        r == Settle(reply, "Failed to create event")
    {
      var token := GetAuthToken();
      if !Truthy(token) {
        return Err(AuthRequiredMessage);
      }
      sent := sent + [Request(POST, "/api/events", AuthHeaders(token.value, true), Some(eventData))];
      r := Settle(reply, "Failed to create event");
    }

    /** `eventsAPI.update(id, eventData)`: protected, `PUT /api/events/:id`. */
    method Update(id: string, eventData: Payload, reply: Reply) returns (r: Result<Body>)
      modifies this`sent
      ensures !Truthy(GetAuthToken()) ==> r == Err(AuthRequiredMessage) && sent == old(sent)
      ensures Truthy(GetAuthToken()) ==>
        sent == old(sent) + [Request(PUT, "/api/events/" + id, AuthHeaders(GetAuthToken().value, true), Some(eventData))] &&
        r == Settle(reply, "Failed to update event")
    {
      var token := GetAuthToken();
      if !Truthy(token) {
        return Err(AuthRequiredMessage);
      }
      sent := sent + [Request(PUT, "/api/events/" + id, AuthHeaders(token.value, true), Some(eventData))];
      r := Settle(reply, "Failed to update event");
    }

    /** `eventsAPI.delete(id)`: protected, `DELETE /api/events/:id`. */
    method Delete(id: string, reply: Reply) returns (r: Result<Body>)
      modifies this`sent
      ensures !Truthy(GetAuthToken()) ==> r == Err(AuthRequiredMessage) && sent == old(sent)
      ensures Truthy(GetAuthToken()) ==>
        sent == old(sent) + [Request(DELETE, "/api/events/" + id, AuthHeaders(GetAuthToken().value, false), None)] &&
        r == Settle(reply, "Failed to delete event")
    {
      var token := GetAuthToken();
      if !Truthy(token) {
        return Err(AuthRequiredMessage);
      }
      sent := sent + [Request(DELETE, "/api/events/" + id, AuthHeaders(token.value, false), None)];
      r := Settle(reply, "Failed to delete event");
    }

    /** `eventsAPI.getUserEvents()`: protected, `GET /api/events/user/my-events`. */
    method GetUserEvents(reply: Reply) returns (r: Result<Body>)
      modifies this`sent
      ensures !Truthy(GetAuthToken()) ==> r == Err(AuthRequiredMessage) && sent == old(sent)
      ensures Truthy(GetAuthToken()) ==>
        sent == old(sent) + [Request(GET, "/api/events/user/my-events", AuthHeaders(GetAuthToken().value, false), None)] &&
        r == Settle(reply, "Failed to fetch user events")
    {
      var token := GetAuthToken();
      if !Truthy(token) {
        return Err(AuthRequiredMessage);
      }
      sent := sent + [Request(GET, "/api/events/user/my-events", AuthHeaders(token.value, false), None)];
      r := Settle(reply, "Failed to fetch user events");
    }
  }

  /** After logout, a protected helper fails at once and issues no request,
      in a browser or not. */
  method LogoutThenCreate(client: Client, eventData: Payload, reply: Reply) returns (r: Result<Body>)
    modifies client
    ensures r == Err(AuthRequiredMessage)
    ensures client.sent == old(client.sent)
  {
    client.Logout();
    r := client.Create(eventData, reply);
  }

  /** A successful login with a token lets the next protected helper through,
      carrying that token, in a browser. */
  method LoginThenGetUserEvents(client: Client, credentials: Payload, loginReply: Reply, reply: Reply)
    returns (r: Result<Body>)
    requires client.browser
    requires loginReply.Answered? && loginReply.ok && Truthy(loginReply.body.token)
    modifies client
    ensures client.sent == old(client.sent) + [
      JsonPost("/api/auth/login", credentials),
      Request(GET, "/api/events/user/my-events", AuthHeaders(loginReply.body.token.value, false), None)]
    ensures r == Settle(reply, "Failed to fetch user events")
  {
    var _ := client.Login(credentials, loginReply);
    r := client.GetUserEvents(reply);
  }
}
