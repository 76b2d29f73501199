/**
 * The API client: error normalisation shared by every endpoint wrapper, and
 * the session held in durable storage under the keys `token` and `user`.
 */
module Api {
  import opened Common
  import opened Text

  const DefaultServerMessage := "An error occurred"
  const NetworkErrorMessage := "Network error. Please check your connection and make sure the backend is running."
  const DefaultUnexpectedMessage := "An unexpected error occurred"

  /** `errors?.join(', ')`, where a missing list counts as "". */
  function JoinedErrors(body: ErrorBody): string {
    match body.errors
    case Some(list) => Join(list, ", ")
    case None => ""
  }

  /**
   * handleError: a reply from the server gives its `error` field, else its
   * joined `errors`, else a default; a request without a reply gives the
   * network message; anything else gives the exception's own message or a
   * default.
   */
  function HandleError(e: HttpError): (msg: string)
    ensures e.response.Some? && e.response.value.error != "" ==>
      msg == e.response.value.error
    ensures e.response.Some? && e.response.value.error == "" && JoinedErrors(e.response.value) != "" ==>
      msg == JoinedErrors(e.response.value)
    ensures e.response.Some? && e.response.value.error == "" && JoinedErrors(e.response.value) == "" ==>
      msg == DefaultServerMessage
    ensures e.response.None? && e.requestSent ==> msg == NetworkErrorMessage
    ensures e.response.None? && !e.requestSent && e.message != "" ==> msg == e.message
    ensures e.response.None? && !e.requestSent && e.message == "" ==> msg == DefaultUnexpectedMessage
    ensures msg != ""
  {
    match e.response
    case Some(body) =>
      if body.error != "" then body.error
      else if JoinedErrors(body) != "" then JoinedErrors(body)
      else DefaultServerMessage
    case None =>
      if e.requestSent then NetworkErrorMessage
      else if e.message != "" then e.message
      else DefaultUnexpectedMessage
  }

  /** An empty `errors` list joins to "" and so falls through to the default message. */
  lemma EmptyErrorListFallsThrough(sent: bool, message: string)
    ensures HandleError(HttpError(Some(ErrorBody("", Some([]))), sent, message)) == DefaultServerMessage
  {
  }

  /** The reply branch wins: whether a request was recorded does not matter once there is a reply. */
  lemma ResponseTakesPrecedence(e: HttpError)
    requires e.response.Some?
    ensures HandleError(e) == HandleError(e.(requestSent := !e.requestSent))
  {
  }

  /**
   * Every endpoint wrapper (`try { return response.data } catch (error) {
   * throw handleError(error) }`): the payload, or the normalised message.
   */
  function Settle<T>(call: Call<T>): (r: Result<T>)
    ensures call.Responded? ==> r == Ok(call.body)
    ensures call.Failed? ==> r == Err(HandleError(call.error))
    ensures r.Err? ==> r.message != ""
  {
    match call
    case Responded(body) => Ok(body)
    case Failed(e) => Err(HandleError(e))
  }

  /** The record the server returns on login and the client stores under `user`. */
  datatype User = User(token: string, role: string, name: string)

  /** The request configuration the interceptor receives and mutates. */
  class RequestConfig {
    var headers: map<string, string>

    constructor (headers: map<string, string>)
      ensures this.headers == headers
    {
      this.headers := headers;
    }
  }

  /**
   * Durable session storage, restricted to the two keys the client owns.
   * The stored user is the record itself: serialising it and parsing it back
   * is taken to give the same record.
   */
  class SessionStore {
    var token: Option<string>
    var user: Option<User>

    constructor ()
      ensures token == None && user == None
    {
      token := None;
      user := None;
    }

    /**
     * login: on a reply whose user record carries a non-empty token, stores
     * the token and the record; any other reply stores nothing; a failure
     * stores nothing and yields the normalised message.
     */
    method Login(call: Call<User>) returns (r: Result<User>)
      modifies this
      ensures call.Responded? && call.body.token != "" ==>
        token == Some(call.body.token) && user == Some(call.body)
      ensures !(call.Responded? && call.body.token != "") ==>
        token == old(token) && user == old(user)
      ensures r == Settle(call)
    {
      match call
      case Responded(data) =>
        if data.token != "" {
          token := Some(data.token);
          user := Some(data);
        }
        r := Ok(data);
      case Failed(e) =>
        r := Err(HandleError(e));
    }

    /** logout: removes both keys, whether or not they were present. */
    method Logout()
      modifies this
      ensures token == None && user == None
      ensures GetCurrentUser() == None && !IsAdmin()
    {
      token := None;
      user := None;
    }

    /** getCurrentUser: the stored record, or null. */
    function GetCurrentUser(): (u: Option<User>)
      reads this
      ensures u == user
    {
      user
    }

    /** isAdmin: a user is stored and its role is "admin". */
    function IsAdmin(): (admin: bool)
      reads this
      ensures admin <==> user.Some? && user.value.role == "admin"
    {
      match GetCurrentUser()
      case Some(u) => u.role == "admin"
      case None => false
    }

    /** getToken: the stored token, or null. */
    function GetToken(): (t: Option<string>)
      reads this
      ensures t == token
    {
      token
    }

    /**
     * The request interceptor: with a (non-empty) stored token, sets the
     * Authorization header to "Bearer " + token; otherwise leaves the
     * configuration as it is. It hands back the same configuration object.
     */
    method InterceptRequest(config: RequestConfig) returns (out: RequestConfig)
      modifies config
      ensures out == config
      ensures token.Some? && token.value != "" ==>
        config.headers == old(config.headers)["Authorization" := "Bearer " + token.value]
      ensures !(token.Some? && token.value != "") ==> config.headers == old(config.headers)
    {
      var t := GetToken();
      if t.Some? && t.value != "" {
        config.headers := config.headers["Authorization" := "Bearer " + t.value];
      }
      out := config;
    }
  }

  /**
   * An admin who logs in is an admin until the logout; a second logout
   * finds nothing to remove and leaves the same empty session.
   */
  method LoginThenLogoutTwice(store: SessionStore, admin: User) returns (wasAdmin: bool)
    requires admin.token != "" && admin.role == "admin"
    modifies store
    ensures wasAdmin
    ensures store.GetCurrentUser() == None && !store.IsAdmin() && store.GetToken() == None
  {
    var r := store.Login(Responded(admin));
    wasAdmin := store.IsAdmin();
    store.Logout();
    store.Logout();
  }
}
