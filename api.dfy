/** The client of the users service: `apiCall` and the two calls built on
    it (`registerUser`, `loginUser`). A call settles to
    the decoded body or to a thrown error's message. */
module Api {
  import opened Common
  import opened JsBuiltins

  const BaseUrl := "http://localhost:3030/users"

  /** The fields of a users-service body that the calls read. */
  datatype ApiData = ApiData(message: Option<string>, accessToken: Option<string>, userId: Option<string>)

  /** How a call settles: the returned value, or the message of the error it
      throws. */
  datatype Outcome<+T> = Returned(value: T) | Threw(message: string)

  /** `${API_BASE_URL}${endpoint}`: the base followed by the endpoint. */
  function RequestUrl(endpoint: string): (r: string)
    ensures |r| == |BaseUrl| + |endpoint|
    ensures r[..|BaseUrl|] == BaseUrl && r[|BaseUrl|..] == endpoint
  {
    BaseUrl + endpoint
  }

  /** The message `apiCall` throws for a refused request without a
      `message` field. */
  function DefaultError(verb: string, endpoint: string): string {
    "Erro na requisição " + verb + " para " + endpoint + "."
  }

  /** `apiCall(endpoint, method)`: the body is decoded before the status is
      looked at, so a body that is not JSON throws whatever the status; an
      ok reply returns the data; a refusal throws the body's `message` or a
      message naming the method and endpoint. */
  function ApiCall(endpoint: string, verb: string, reply: Reply<ApiData>): (r: Outcome<ApiData>)
    ensures r.Returned? <==> reply.Ok() && reply.body.Parsed?
    ensures r.Returned? ==> r.value == reply.body.value
    ensures reply.Response? && !IsOk(reply.status) && reply.body.Parsed? ==>
              r == Threw(OrElse(reply.body.value.message, DefaultError(verb, endpoint)))
    ensures reply.NetworkFailure? ==> r == Threw(reply.reason)
    ensures reply.Response? && reply.body.Unparsable? ==> r == Threw(reply.body.reason)
  {
    match reply
    case NetworkFailure(reason) => Threw(reason)
    case Response(status, _, body) =>
      match body
      case Unparsable(reason) => Threw(reason)
      case Parsed(data) =>
        if !IsOk(status) then Threw(OrElse(data.message, DefaultError(verb, endpoint)))
        else Returned(data)
  }

  /** A refused request always throws a non-empty message: the fallback
      names the method and endpoint whenever the server sends none. */
  lemma RefusalMessageNonEmpty(endpoint: string, verb: string, reply: Reply<ApiData>)
    requires reply.Response? && !IsOk(reply.status) && reply.body.Parsed?
    ensures ApiCall(endpoint, verb, reply).Threw?
    ensures ApiCall(endpoint, verb, reply).message != ""
    ensures reply.body.value.message.None? ==>
              exists i :: OccursAt(ApiCall(endpoint, verb, reply).message, endpoint, i)
  {
    if reply.body.value.message.None? {
      var m := ApiCall(endpoint, verb, reply).message;
      var i := |"Erro na requisição " + verb + " para "|;
      assert m[i..i + |endpoint|] == endpoint;
      assert OccursAt(m, endpoint, i);
    }
  }

  /** The JSON body of `POST /register`. */
  datatype RegisterBody = RegisterBody(email: string, password: string, customer: bool)

  /** `registerUser({email, password, role})`: sends `customer = (role ===
      'customer')` and settles as `apiCall` does. */
  function RegisterUser(email: string, password: string, role: string, reply: Reply<ApiData>)
    : (r: (RegisterBody, Outcome<ApiData>))
    ensures r.0.email == email && r.0.password == password
    ensures r.0.customer <==> role == "customer"
    ensures r.1 == ApiCall("/register", "POST", reply)
  {
    (RegisterBody(email, password, role == "customer"), ApiCall("/register", "POST", reply))
  }

  /** The session `loginUser` returns. */
  datatype Session = Session(token: Option<string>, userId: Option<string>, email: string, role: string)

  /** The role guessed from the e-mail text. */
  function RoleFromEmail(email: string): (r: string)
    ensures r == "seller" || r == "customer"
  {
    if Includes(email, "vendedor") || Includes(email, "seller") then "seller" else "customer"
  }

  /** The guess is 'seller' exactly when 'vendedor' or 'seller' occurs
      somewhere in the address, case-sensitively. */
  lemma RoleFromEmailIff(email: string)
    ensures RoleFromEmail(email) == "seller" <==>
              (exists i :: OccursAt(email, "vendedor", i)) || (exists i :: OccursAt(email, "seller", i))
  {
    IncludesIff(email, "vendedor");
    IncludesIff(email, "seller");
  }

  /** `loginUser({email, password})`: on success the session carries the
      server's `access_token` and `user_id`, the e-mail as typed, and the
      role guessed from it; a failure throws as `apiCall` does. */
  function LoginUser(email: string, password: string, reply: Reply<ApiData>): (r: Outcome<Session>)
    ensures r.Returned? <==> ApiCall("/login", "POST", reply).Returned?
    ensures r.Threw? ==> r.message == ApiCall("/login", "POST", reply).message
    ensures r.Returned? ==>
              r.value.token == reply.body.value.accessToken && r.value.userId == reply.body.value.userId &&
              r.value.email == email && r.value.role == RoleFromEmail(email)
  {
    match ApiCall("/login", "POST", reply)
    case Threw(message) => Threw(message)
    case Returned(data) => Returned(Session(data.accessToken, data.userId, email, RoleFromEmail(email)))
  }
}
