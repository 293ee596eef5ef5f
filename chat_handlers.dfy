/**
 * The HTTP handlers of the chat server (chat/src/handlers.rs): account
 * creation, login, and the two token-guarded queries.  The login token (a
 * fresh uuid in the server) is a parameter.
 */
module ChatHandlers {
  import opened ChatModels
  import opened ChatState

  /** The JSON body of a successful reply (models.rs response structs). */
  datatype Body =
    | SignupOk(message: string)
    | LoginOk(token: string)
    | HistoryOk(messages: seq<string>)
    | OnlineUsersOk(users: seq<string>)

  /** An HTTP reply: 200 with a body, 400 or 401 with an `ErrorMessage`. */
  datatype Response = Ok(body: Body) | BadRequest(error: string) | Unauthorized(error: string)

  /** `signup` (handlers.rs:7-22) on a snapshot: the new state and the reply. */
  function SignupStep(w: World, newUser: User): (World, Response)
  {
    if newUser.username in w.users then (w, BadRequest(UserExists))
    else (w.(users := w.users[newUser.username := newUser]), Ok(SignupOk(SignupSucceeded)))
  }

  /** `login` (handlers.rs:24-44) on a snapshot, `token` standing for the generated uuid. */
  function LoginStep(w: World, info: LoginInfo, token: string): (World, Response)
  {
    if info.username in w.users && w.users[info.username].password == info.password then
      (w.(sessions := w.sessions[token := info.username]), Ok(LoginOk(token)))
    else (w, Unauthorized(BadCredentials))
  }

  /**
   * Signup refuses a taken name and leaves `users` alone; otherwise it adds
   * exactly that name, mapped to the submitted account.  Nothing else changes.
   */
  lemma SignupOutcome(w: World, newUser: User)
    ensures var (r, resp) := SignupStep(w, newUser);
      && r.sessions == w.sessions && r.connections == w.connections
      && r.messages == w.messages && r.outbox == w.outbox && r.uploads == w.uploads
      && (newUser.username in w.users <==> resp == BadRequest(UserExists))
      && (newUser.username in w.users ==> r.users == w.users)
      && (newUser.username !in w.users <==> resp == Ok(SignupOk(SignupSucceeded)))
      && (newUser.username !in w.users ==>
            r.users.Keys == w.users.Keys + {newUser.username}
            && r.users[newUser.username] == newUser
            && forall k :: k in w.users ==> r.users[k] == w.users[k])
  {
  }

  /** A token is issued exactly when the name exists with that password; only then does `sessions` change, by that one entry. */
  lemma LoginOutcome(w: World, info: LoginInfo, token: string)
    ensures var (r, resp) := LoginStep(w, info, token);
      var valid := info.username in w.users && w.users[info.username].password == info.password;
      && r.users == w.users && r.connections == w.connections
      && r.messages == w.messages && r.outbox == w.outbox && r.uploads == w.uploads
      && (valid <==> resp == Ok(LoginOk(token)))
      && (valid ==> r.sessions == w.sessions[token := info.username])
      && (!valid <==> resp == Unauthorized(BadCredentials))
      && (!valid ==> r.sessions == w.sessions)
  {
  }

  /** Signing up keeps the state consistent: the new account sits under its own name, and no session loses its account. */
  lemma SignupKeepsConsistent(w: World, newUser: User)
    requires Consistent(w)
    ensures Consistent(SignupStep(w, newUser).0)
  {
    var r := SignupStep(w, newUser).0;
    forall t | t in r.sessions
      ensures r.sessions[t] in r.users
    {
      assert w.sessions[t] in w.users;
    }
  }

  /** Logging in keeps the state consistent: a token is only issued for an existing account. */
  lemma LoginKeepsConsistent(w: World, info: LoginInfo, token: string)
    requires Consistent(w)
    ensures Consistent(LoginStep(w, info, token).0)
  {
  }

  method Signup(app: AppState, newUser: User) returns (resp: Response)
    requires app.Valid()
    modifies app`users
    ensures app.Valid()
    ensures (app.Snapshot(), resp) == SignupStep(old(app.Snapshot()), newUser)
  {
    if newUser.username in app.users {
      return BadRequest(UserExists);
    }
    app.users := app.users[newUser.username := newUser];
    resp := Ok(SignupOk(SignupSucceeded));
    SignupKeepsConsistent(old(app.Snapshot()), newUser);
  }

  method Login(app: AppState, info: LoginInfo, token: string) returns (resp: Response)
    requires app.Valid()
    modifies app`sessions
    ensures app.Valid()
    ensures (app.Snapshot(), resp) == LoginStep(old(app.Snapshot()), info, token)
  {
    if info.username in app.users {
      var user := app.users[info.username];
      if user.password == info.password {
        app.sessions := app.sessions[token := info.username];
        return Ok(LoginOk(token));
      }
    }
    resp := Unauthorized(BadCredentials);
  }

  /**
   * `get_history` (handlers.rs:46-68): with a known token, the transcript of
   * the session's user in append order (empty when it has none); otherwise
   * 401 "Invalid token".
   */
  function GetHistory(app: AppState, token: string): (r: Response)
    reads app
    ensures r.Unauthorized? <==> token !in app.sessions
    ensures r.Unauthorized? ==> r.error == InvalidToken
    ensures r.Ok? ==> r.body.HistoryOk?
    ensures r.Ok? && app.sessions[token] in app.messages ==> r.body.messages == app.messages[app.sessions[token]]
    ensures r.Ok? && app.sessions[token] !in app.messages ==> r.body.messages == []
    ensures !r.BadRequest?
  {
    if token in app.sessions then
      var username := app.sessions[token];
      if username in app.messages then Ok(HistoryOk(app.messages[username]))
      else Ok(HistoryOk([]))
    else Unauthorized(InvalidToken)
  }

  /**
   * `get_online_users` (handlers.rs:70-86): with a known token, every
   * registered name exactly once (in no particular order); otherwise 401.
   */
  method GetOnlineUsers(app: AppState, token: string) returns (r: Response)
    ensures r.Unauthorized? <==> token !in app.sessions
    ensures r.Unauthorized? ==> r.error == InvalidToken
    ensures r.Ok? ==> r.body.OnlineUsersOk?
    ensures r.Ok? ==> forall v :: v in r.body.users <==> v in app.connections
    ensures r.Ok? ==> forall i, j :: 0 <= i < j < |r.body.users| ==> r.body.users[i] != r.body.users[j]
    ensures !r.BadRequest?
  {
    if token !in app.sessions {
      return Unauthorized(InvalidToken);
    }
    var names: seq<string> := [];
    var pending := app.connections.Keys;
    while pending != {}
      invariant pending <= app.connections.Keys
      invariant forall v :: v in names <==> v in app.connections && v !in pending
      invariant forall i, j :: 0 <= i < j < |names| ==> names[i] != names[j]
      decreases pending
    {
      var u :| u in pending;
      names := names + [u];
      pending := pending - {u};
    }
    r := Ok(OnlineUsersOk(names));
  }
}
