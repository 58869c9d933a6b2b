/** The login page: the credentials request, storing the token and email,
    and routing by role. Local storage is a map; the server's reply is a
    parameter. */
module Login {
  import opened Web

  datatype LoginPage = LoginPage(email: string, password: string, error: string, loading: bool)

  const Initial := LoginPage("", "", "", false)

  const FarmerHome := "/views/farmer/layout/"
  const BuyerHome := "/views/buyer/layout/"

  /** The body the page posts to `/api/user/authenticate`. */
  datatype Credentials = Credentials(email: string, password: string)

  /** The outcome of the request: an ok reply with the fields of its JSON
      body (`None` for a field that is absent), a non-ok reply, or a value
      thrown by `fetch` or while reading the body. */
  datatype AuthReply =
    | Authenticated(token: Option<string>, username: Option<string>, role: Option<string>)
    | NotOk
    | Threw(err: Thrown)

  /** What `localStorage.setItem` stores for a value: the text itself, or
      "undefined" for an absent field. */
  function Stored(v: Option<string>): (r: string)
    ensures v.Some? ==> r == v.value
    ensures v.None? ==> r == "undefined"
  {
    v.GetOr("undefined")
  }

  /** The route a role leads to; no route for any other role. */
  function RouteFor(role: Option<string>): (r: Option<string>)
    ensures r == Some(FarmerHome) <==> role == Some("FARMER")
    ensures r == Some(BuyerHome) <==> role == Some("USER")
    ensures r.None? <==> role != Some("FARMER") && role != Some("USER")
  {
    if role == Some("FARMER") then Some(FarmerHome)
    else if role == Some("USER") then Some(BuyerHome)
    else None
  }

  datatype Outcome = Outcome(page: LoginPage, storage: Storage, route: Option<string>)

  /** `handleSubmit`: an ok reply stores the token and the username (as the
      email) before routing by role, and an unknown role is reported after
      storing; a non-ok reply shows "Invalid credentials"; a thrown Error
      shows its message and anything else "Login failed". Storage changes
      only on an ok reply, and loading ends in every case. */
  function Submit(p: LoginPage, storage: Storage, reply: AuthReply): (r: (Outcome, Credentials))
    ensures r.1 == Credentials(p.email, p.password)
    ensures !r.0.page.loading && r.0.page.email == p.email && r.0.page.password == p.password
    ensures reply.Authenticated? ==>
      && r.0.storage == storage["token" := Stored(reply.token)]["email" := Stored(reply.username)]
      && r.0.route == RouteFor(reply.role)
      && (r.0.route.Some? ==> r.0.page.error == "")
      && (r.0.route.None? ==> r.0.page.error == "Unknown role. Cannot redirect.")
    ensures !reply.Authenticated? ==> r.0.storage == storage && r.0.route.None?
    ensures reply.NotOk? ==> r.0.page.error == "Invalid credentials"
    ensures reply.Threw? && reply.err.ErrorValue? ==> r.0.page.error == reply.err.message
    ensures reply == Threw(NonError) ==> r.0.page.error == "Login failed"
  {
    var creds := Credentials(p.email, p.password);
    var cleared := p.(error := "", loading := false);
    match reply
    case Authenticated(token, username, role) =>
      var stored := storage["token" := Stored(token)]["email" := Stored(username)];
      var route := RouteFor(role);
      var page := if route.Some? then cleared else cleared.(error := "Unknown role. Cannot redirect.");
      (Outcome(page, stored, route), creds)
    case NotOk => (Outcome(cleared.(error := "Invalid credentials"), storage, None), creds)
    case Threw(ErrorValue(message)) => (Outcome(cleared.(error := message), storage, None), creds)
    case Threw(NonError) => (Outcome(cleared.(error := "Login failed"), storage, None), creds)
  }

  /** After a successful farmer login the dashboard cards find the email
      they look up: the stored email is the returned username. */
  lemma FarmerLoginStoresEmail(p: LoginPage, storage: Storage, token: string, username: string)
    ensures var out := Submit(p, storage, Authenticated(Some(token), Some(username), Some("FARMER"))).0;
      && out.route == Some(FarmerHome)
      && GetItem(out.storage, "email") == Some(username)
      && GetItem(out.storage, "token") == Some(token)
      && out.page.error == ""
  {
  }
}
