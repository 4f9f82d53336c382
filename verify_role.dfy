/** The role-verification endpoint `GET /api/auth/verify-role`: answers
    whether the current session belongs to an elevated role. */
module VerifyRole {
  import opened Js

  datatype User = User(role: Option<string>)

  datatype Session = Session(user: Option<User>)

  /** What the session lookup of the authentication library gave: a session
      (or none), or a thrown value. */
  datatype SessionLookup = Found(session: Option<Session>) | Threw(error: Thrown)

  /** The roles allowed into the admin area. */
  const ElevatedRoles: set<string> := {"admin", "moderator"}

  /** The role of the session's user, when there is one. */
  function RoleOf(session: Option<Session>): Option<string>
  {
    if session.Some? && session.value.user.Some? then session.value.user.value.role else None
  }

  /** `session?.user?.role === "admin" || session?.user?.role === "moderator"`. */
  predicate Authorized(session: Option<Session>)
  {
    match session
    case None => false
    case Some(s) =>
      match s.user
      case None => false
      case Some(u) => u.role == Some("admin") || u.role == Some("moderator")
  }

  /** The predicate is membership of the session's role in the elevated roles. */
  lemma AuthorizedIffElevated(session: Option<Session>)
    ensures Authorized(session) <==> RoleOf(session).Some? && RoleOf(session).value in ElevatedRoles
  {
  }

  /** No session, no user, no role, or an ordinary role: not authorized. */
  lemma OrdinaryRolesRefused(session: Option<Session>)
    ensures session.None? ==> !Authorized(session)
    ensures RoleOf(session) == None ==> !Authorized(session)
    ensures RoleOf(session) == Some("user") ==> !Authorized(session)
  {
  }

  /** The JSON response: its status, `authorized`, and on failure the
      `error` and `message` fields. */
  datatype VerifyResponse = VerifyResponse(status: int, authorized: bool, error: Option<string>, message: Option<string>)

  /** The endpoint's response for a given session lookup. */
  function Respond(lookup: SessionLookup): (r: VerifyResponse)
    ensures r.status == 200 <==> lookup.Found?
    ensures r.status == 401 <==> lookup.Threw?
    ensures r.authorized <==> lookup.Found? && Authorized(lookup.session)
    ensures r.error.Some? <==> r.status == 401
    ensures lookup.Found? ==> r.error.None? && r.message.None?
    ensures lookup.Threw? ==> r.error == Some("Unauthorized")
    ensures lookup.Threw? && lookup.error.ErrorObject? ==> r.message == Some(lookup.error.message)
    ensures lookup.Threw? && lookup.error.NonError? ==> r.message == Some("Unknown error")
  {
    match lookup
    case Found(session) => VerifyResponse(200, Authorized(session), None, None)
    case Threw(e) =>
      var message := match e case ErrorObject(m, _) => m case NonError => "Unknown error";
      VerifyResponse(401, false, Some("Unauthorized"), Some(message))
  }

  /** A missing session is still a normal 200 answer, with `authorized` false. */
  lemma MissingSessionIs200(lookup: SessionLookup)
    requires lookup == Found(None)
    ensures Respond(lookup) == VerifyResponse(200, false, None, None)
  {
  }
}
