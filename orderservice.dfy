/** The order API client (`services/orderService.js`): where the bearer token
    and the user record are looked up, the authentication predicate, and how
    each order call turns an unauthenticated caller, a network failure or an
    error response into an error message. The HTTP exchange itself is a
    parameter (`Reply`). */
module OrderService {
  import opened Options
  import opened Text

  /** The two browser storages as raw strings. */
  datatype Browser = Browser(local: map<string, string>, session: map<string, string>)

  /** A parsed user record: its email field, if any. */
  datatype UserData = UserData(email: Option<string>)

  /** `storage.getItem(key)`: None stands for null. */
  function Item(m: map<string, string>, key: string): Option<string> {
    if key in m then Some(m[key]) else None
  }

  /** `a || b` on values that may be null: b when a is falsy. */
  function Either(a: Option<string>, b: Option<string>): Option<string> {
    if Filled(a) then a else b
  }

  /** `getAuthToken`: local "token", "authToken", "accessToken", then session
      "token", "authToken", the first that is truthy. */
  function GetAuthToken(b: Browser): Option<string> {
    Either(Item(b.local, "token"),
      Either(Item(b.local, "authToken"),
        Either(Item(b.local, "accessToken"),
          Either(Item(b.session, "token"), Item(b.session, "authToken")))))
  }

  /** The five lookups in the order `getAuthToken` tries them. */
  function TokenSources(b: Browser): seq<Option<string>> {
    [Item(b.local, "token"), Item(b.local, "authToken"), Item(b.local, "accessToken"),
     Item(b.session, "token"), Item(b.session, "authToken")]
  }

  /** `getUserData`: the record under local "user", else "userData", parsed
      by `parse` (None: `JSON.parse` throws); {} when both are absent or the
      text does not parse. */
  function GetUserData(b: Browser, parse: string -> Option<UserData>): (r: UserData)
    ensures !Filled(Item(b.local, "user")) && !Filled(Item(b.local, "userData")) ==> r == UserData(None)
    ensures Filled(Item(b.local, "user")) && parse(b.local["user"]).Some? ==> r == parse(b.local["user"]).value
    ensures Filled(Item(b.local, "user")) && parse(b.local["user"]).None? ==> r == UserData(None)
    ensures !Filled(Item(b.local, "user")) && Filled(Item(b.local, "userData")) ==>
              r == if parse(b.local["userData"]).Some? then parse(b.local["userData"]).value else UserData(None)
  {
    var raw := Either(Item(b.local, "user"), Item(b.local, "userData"));
    if Filled(raw) then
      match parse(raw.value)
      case Some(u) => u
      case None => UserData(None)
    else UserData(None)
  }

  /** `isAuthenticated`: a truthy token and a truthy email. */
  predicate IsAuthenticated(b: Browser, parse: string -> Option<UserData>) {
    Filled(GetAuthToken(b)) && Filled(GetUserData(b, parse).email)
  }

  datatype Headers = Headers(contentType: string, authorization: string)

  /** `getAuthHeaders` */
  function GetAuthHeaders(b: Browser): (h: Headers)
    ensures h.contentType == "application/json"
    ensures Filled(GetAuthToken(b)) ==> h.authorization == "Bearer " + GetAuthToken(b).value
    ensures !Filled(GetAuthToken(b)) ==> h.authorization == ""
  {
    var token := GetAuthToken(b);
    Headers("application/json", if Filled(token) then "Bearer " + token.value else "")
  }

  // ---------------------------------------------------------------------------
  // Properties of the lookups

  /** The token is the first truthy source, in the fixed order; when none is
      truthy the result is falsy. */
  lemma TokenPrecedence(b: Browser, k: nat)
    requires k < 5 && Filled(TokenSources(b)[k])
    requires forall j :: 0 <= j < k ==> !Filled(TokenSources(b)[j])
    ensures GetAuthToken(b) == TokenSources(b)[k]
  {
    var s := TokenSources(b);
    if k >= 1 { assert !Filled(s[0]); }
    if k >= 2 { assert !Filled(s[1]); }
    if k >= 3 { assert !Filled(s[2]); }
    if k >= 4 { assert !Filled(s[3]); }
  }

  lemma NoTokenSource(b: Browser)
    ensures (forall j :: 0 <= j < 5 ==> !Filled(TokenSources(b)[j])) <==> !Filled(GetAuthToken(b))
  {
    var s := TokenSources(b);
    if !Filled(GetAuthToken(b)) {
      assert !Filled(s[0]) && !Filled(s[1]) && !Filled(s[2]) && !Filled(s[3]) && !Filled(s[4]);
    } else {
      assert Filled(s[0]) || Filled(s[1]) || Filled(s[2]) || Filled(s[3]) || Filled(s[4]);
    }
  }

  /** Authenticated exactly when one of the five token slots is truthy and
      the user record has a truthy email; then the request carries a bearer
      header, and with no user record at all the caller is not
      authenticated. */
  lemma AuthenticatedIff(b: Browser, parse: string -> Option<UserData>)
    ensures IsAuthenticated(b, parse) <==>
              (exists j :: 0 <= j < 5 && Filled(TokenSources(b)[j])) && Filled(GetUserData(b, parse).email)
    ensures IsAuthenticated(b, parse) ==> StartsWith(GetAuthHeaders(b).authorization, "Bearer ")
    ensures !Filled(Item(b.local, "user")) && !Filled(Item(b.local, "userData")) ==> !IsAuthenticated(b, parse)
  {
    NoTokenSource(b);
    if IsAuthenticated(b, parse) {
      var h := GetAuthHeaders(b).authorization;
      assert h[..|"Bearer "|] == "Bearer ";
    }
  }

  // ---------------------------------------------------------------------------
  // The order calls

  datatype Operation = CreateOrder | GetUserOrders | GetOrder | UpdateOrderStatus | GetOrderStats

  /** The error thrown before any request when not authenticated. */
  function LoginRequired(op: Operation): string {
    match op
    case CreateOrder => "Please log in to place an order"
    case GetUserOrders => "Please log in to view orders"
    case GetOrder => "Please log in to view order details"
    case UpdateOrderStatus => "Please log in to update order"
    case GetOrderStats => "Please log in to view order statistics"
  }

  /** The fallback message of a failed call. */
  function DefaultFailure(op: Operation): string {
    match op
    case CreateOrder => "Failed to create order"
    case GetUserOrders => "Failed to fetch orders"
    case GetOrder => "Failed to fetch order"
    case UpdateOrderStatus => "Failed to update order status"
    case GetOrderStats => "Failed to fetch order stats"
  }

  /** The message a fetch `TypeError` is turned into. */
  function ConnectionFailure(op: Operation): string {
    if op == CreateOrder then
      ConnectionRefused + ". Please ensure the backend server is running on http://localhost:5000"
    else ConnectionRefused + ". Please ensure the backend server is running."
  }

  const ConnectionRefused := "Cannot connect to server"

  const AuthExpired := "Authentication required. Please log in again."

  /** The text a failed `response.json()` throws; its wording is the
      JavaScript engine's. */
  const InvalidJson := "Unexpected token in JSON"

  /** A parsed response body: its truthy-or-not `message` field (None when
      the value has no such field, as a number, a string or an array has
      not) and the rest. */
  datatype Body<B> = Body(message: Option<string>, data: B)

  /** What `fetch` produced: a network failure (a `TypeError` mentioning
      fetch), or a status with the body text and, when `JSON.parse` of that
      text succeeds with a value other than null, that value. The text "null"
      counts as not parsing: reading `.message` of null throws, and the
      catch then falls back to the raw text exactly as for malformed JSON. */
  datatype Reply<B> = NetworkFailure | Answer(status: nat, text: string, json: Option<Body<B>>)

  predicate Ok(status: nat) {
    200 <= status <= 299
  }

  datatype Result<B> = Success(body: Body<B>) | Failure(message: string)

  /** The outcome of one call: whether a request went out, and what the call
      returned or threw. */
  datatype Call<B> = Call(sent: bool, result: Result<B>)

  /** `errorJson.message || default`, or when the text is not JSON,
      `errorText || default`. */
  function BodyMessage<B>(text: string, json: Option<Body<B>>, default: string): string {
    match json
    case Some(body) => OrElse(body.message, default)
    case None => if text != "" then text else default
  }

  /** The message thrown for a non-OK response. */
  function ErrorMessage<B>(op: Operation, status: nat, text: string, json: Option<Body<B>>): string {
    var message := BodyMessage(text, json, DefaultFailure(op));
    if status == 401 then AuthExpired
    else if op == CreateOrder then "Server Error (" + NatToString(status) + "): " + message
    else message
  }

  /** One order call: `createOrder`, `getUserOrders`, `getOrder`,
      `updateOrderStatus` or `getOrderStats`, from the guard to what it
      returns or throws. */
  function Perform<B>(op: Operation, b: Browser, parse: string -> Option<UserData>, reply: Reply<B>): (c: Call<B>)
    ensures c.sent <==> IsAuthenticated(b, parse)
    ensures !IsAuthenticated(b, parse) ==> c.result == Failure(LoginRequired(op))
    ensures IsAuthenticated(b, parse) && reply.NetworkFailure? ==> c.result == Failure(ConnectionFailure(op))
    ensures IsAuthenticated(b, parse) && reply.Answer? && !Ok(reply.status) ==>
              c.result == Failure(ErrorMessage(op, reply.status, reply.text, reply.json))
    ensures IsAuthenticated(b, parse) && reply.Answer? && Ok(reply.status) ==>
              c.result == if reply.json.Some? then Success(reply.json.value) else Failure(InvalidJson)
  {
    if !IsAuthenticated(b, parse) then Call(false, Failure(LoginRequired(op)))
    else match reply
      case NetworkFailure => Call(true, Failure(ConnectionFailure(op)))
      case Answer(status, text, json) =>
        if !Ok(status) then Call(true, Failure(ErrorMessage(op, status, text, json)))
        else if json.None? then Call(true, Failure(InvalidJson))
        else Call(true, Success(json.value))
  }

  // ---------------------------------------------------------------------------
  // Properties of the error rules

  /** A 401 always yields the same message, whatever the call and the body. */
  lemma Status401<B>(op: Operation, text: string, json: Option<Body<B>>)
    ensures ErrorMessage(op, 401, text, json) == AuthExpired
  {
  }

  /** The body's message wins, then the raw text, then the call's default. */
  lemma MessagePrecedence<B>(text: string, json: Option<Body<B>>, default: string)
    ensures json.Some? && Filled(json.value.message) ==> BodyMessage(text, json, default) == json.value.message.value
    ensures json.Some? && !Filled(json.value.message) ==> BodyMessage(text, json, default) == default
    ensures json.None? && text != "" ==> BodyMessage(text, json, default) == text
    ensures json.None? && text == "" ==> BodyMessage(text, json, default) == default
  {
  }

  /** Only `createOrder` prefixes its non-401 errors with the status; the
      other calls report the body's message as it is. */
  lemma OnlyCreatePrefixes<B>(op: Operation, status: nat, text: string, json: Option<Body<B>>)
    requires status != 401
    ensures op == CreateOrder ==>
      ErrorMessage(op, status, text, json)
        == "Server Error (" + NatToString(status) + "): " + BodyMessage(text, json, DefaultFailure(op))
    ensures op == CreateOrder ==> StartsWith(ErrorMessage(op, status, text, json), "Server Error (")
    ensures op != CreateOrder ==> ErrorMessage(op, status, text, json) == BodyMessage(text, json, DefaultFailure(op))
  {
    if op == CreateOrder {
      var s := "Server Error (" + NatToString(status) + "): " + BodyMessage(text, json, DefaultFailure(op));
      assert s[..|"Server Error ("|] == "Server Error (";
    }
  }

  // ---------------------------------------------------------------------------
  // The orders query

  /** The `URLSearchParams` of `getUserOrders(page, limit, status)`. */
  function OrdersQuery(page: nat, limit: nat, status: Option<string>): (q: seq<(string, string)>)
    ensures |q| >= 2 && q[0] == ("page", NatToString(page)) && q[1] == ("limit", NatToString(limit))
    ensures Filled(status) <==> (exists i :: 0 <= i < |q| && q[i].0 == "status")
    ensures Filled(status) ==> q == q[..2] + [("status", status.value)]
    ensures !Filled(status) ==> |q| == 2
  {
    var base := [("page", NatToString(page)), ("limit", NatToString(limit))];
    if Filled(status) then
      var q := base + [("status", status.value)];
      assert q[2].0 == "status";
      q
    else base
  }

  /** The query string `params.toString()` builds (percent-encoding aside). */
  function Serialize(q: seq<(string, string)>): string {
    if q == [] then ""
    else if |q| == 1 then q[0].0 + "=" + q[0].1
    else q[0].0 + "=" + q[0].1 + "&" + Serialize(q[1..])
  }

  /** Two or more entries are the first one, "&", and the rest. */
  lemma SerializeCons(k: string, v: string, rest: seq<(string, string)>)
    requires rest != []
    ensures Serialize([(k, v)] + rest) == k + "=" + v + "&" + Serialize(rest)
  {
    assert ([(k, v)] + rest)[1..] == rest;
  }

  /** The serialised page and limit entries, values left abstract. */
  lemma QueryTwo(p: string, l: string)
    ensures Serialize([("page", p), ("limit", l)]) == "page=" + p + "&limit=" + l
  {
    assert [("page", p), ("limit", l)] == [("page", p)] + [("limit", l)];
    SerializeCons("page", p, [("limit", l)]);
    assert Serialize([("limit", l)]) == "limit" + "=" + l;
  }

  /** The serialised page, limit and status entries, values left abstract. */
  lemma QueryThree(p: string, l: string, s: string)
    ensures Serialize([("page", p), ("limit", l), ("status", s)]) == "page=" + p + "&limit=" + l + "&status=" + s
  {
    assert [("limit", l), ("status", s)] == [("limit", l)] + [("status", s)];
    SerializeCons("limit", l, [("status", s)]);
    var tail := "limit=" + l + "&status=" + s;
    assert Serialize([("limit", l), ("status", s)]) == tail;
    assert [("page", p), ("limit", l), ("status", s)] == [("page", p)] + [("limit", l), ("status", s)];
    SerializeCons("page", p, [("limit", l), ("status", s)]);
    assert "page" + "=" + p + "&" + tail == "page=" + p + "&limit=" + l + "&status=" + s;
  }

  /** The query string of every call: page, then limit, then the status
      when it is truthy. */
  lemma OrdersQuerySerialized(page: nat, limit: nat, status: Option<string>)
    ensures Serialize(OrdersQuery(page, limit, status))
      == "page=" + NatToString(page) + "&limit=" + NatToString(limit)
         + (if Filled(status) then "&status=" + status.value else "")
  {
    if Filled(status) {
      QueryThree(NatToString(page), NatToString(limit), status.value);
    } else {
      QueryTwo(NatToString(page), NatToString(limit));
    }
  }
}
