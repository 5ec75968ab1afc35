/**
  The auth store: the signed-in user, the JWT token and the last
  authentication errors, with login, register, logout and clearErrors.

  The login and register requests are `respond`, from the credentials to the
  outcome. localStorage is a map of the two items the store writes;
  `JSON.stringify` of the user is `stringify`.
 */
module AuthStore {
  import opened Wrappers
  import opened Frontend

  const LoginError := "An error occurred during login"
  const RegisterError := "An error occurred during registration"

  /** A user object as the API returns it, by its properties. */
  datatype User = User(fields: map<string, string>)

  /** The errors object: field name to messages. A message read from an absent property is
      `undefined`, hence `Option`. */
  type Errors = map<string, seq<Option<string>>>

  /** `response.data` of a rejected request, by the fields the store reads. */
  datatype ErrorBody = ErrorBody(errors: Option<Errors>, message: Option<string>)

  /** An awaited login or register call: resolved with the user and token of `response.data`, or
      rejected with or without `error.response.data`. */
  datatype AuthOutcome = Accepted(user: Option<User>, token: Option<string>) | Rejected(body: Option<ErrorBody>)

  datatype AuthState = AuthState(user: Option<User>, token: Option<string>, errors: Errors, storage: map<string, string>)

  function InitialAuthState(storage: map<string, string>): AuthState {
    AuthState(None, None, map[], storage)
  }

  /** isAuthenticated: `!!state.token`. */
  predicate IsAuthenticated(st: AuthState) {
    JsTruthy(st.token)
  }

  /** `String(value)` of a possibly absent token, as `setItem` stores it. `None` stands for an
      absent (`undefined`) token only; a `null` token, which would be stored as "null", is not
      told apart from it. */
  function Stored(token: Option<string>): string {
    if token.Some? then token.value else "undefined"
  }

  /** The errors a rejection leaves: the response's `errors`, else `{ general: [message] }` when
      the response has data, else the generic message. */
  function RejectionErrors(body: Option<ErrorBody>, generic: string): Errors {
    if body.None? then map["general" := [Some(generic)]]
    else if body.value.errors.Some? then body.value.errors.value
    else map["general" := [body.value.message]]
  }

  /** login and register: the new state and the boolean they return. */
  function Authenticated(st: AuthState, outcome: AuthOutcome, generic: string, stringify: Option<User> -> string): (AuthState, bool) {
    match outcome
    case Accepted(user, token) =>
      (st.(user := user, token := token, errors := map[],
           storage := st.storage["user" := stringify(user)]["token" := Stored(token)]), true)
    case Rejected(body) => (st.(errors := RejectionErrors(body, generic)), false)
  }

  function LoggedOut(st: AuthState): AuthState {
    st.(user := None, token := None, errors := map[])
  }

  function ErrorsCleared(st: AuthState): AuthState {
    st.(errors := map[])
  }

  /** A successful call stores user and token in the state and in localStorage, clears the errors
      and returns true; the store is then authenticated exactly when the token is truthy. */
  lemma AcceptedSignsIn(st: AuthState, user: Option<User>, token: Option<string>, generic: string,
                        stringify: Option<User> -> string)
    ensures var (r, ok) := Authenticated(st, Accepted(user, token), generic, stringify);
      && ok && r.user == user && r.token == token && r.errors == map[]
      && r.storage["token"] == Stored(token) && r.storage["user"] == stringify(user)
      && (IsAuthenticated(r) <==> token.Some? && token.value != "")
  {
  }

  /** A failed call returns false, keeps the user, the token and localStorage, and records the
      response's errors, or its message under `general`, or the generic message. */
  lemma RejectedKeepsSession(st: AuthState, body: Option<ErrorBody>, generic: string, stringify: Option<User> -> string)
    ensures var (r, ok) := Authenticated(st, Rejected(body), generic, stringify);
      && !ok && r.user == st.user && r.token == st.token && r.storage == st.storage
      && IsAuthenticated(r) == IsAuthenticated(st)
      && (body.None? ==> r.errors == map["general" := [Some(generic)]])
      && (body.Some? && body.value.errors.Some? ==> r.errors == body.value.errors.value)
      && (body.Some? && body.value.errors.None? ==> r.errors == map["general" := [body.value.message]])
  {
  }

  /** After a rejection the store always has something to show. */
  lemma RejectionExplains(body: Option<ErrorBody>, generic: string)
    requires body.Some? ==> body.value.errors != Some(map[])
    ensures RejectionErrors(body, generic) != map[]
  {
    if body.None? || body.value.errors.None? {
      assert "general" in RejectionErrors(body, generic);
    }
  }

  /** Logging out signs out whatever came before; the errors of any earlier call are gone. */
  lemma LogoutSignsOut(st: AuthState, outcome: AuthOutcome, generic: string, stringify: Option<User> -> string)
    ensures !IsAuthenticated(LoggedOut(st))
    ensures LoggedOut(Authenticated(st, outcome, generic, stringify).0).(storage := st.storage) == LoggedOut(st)
  {
  }

  /** clearErrors changes the errors only, and keeps the session. */
  lemma ClearErrorsKeepsSession(st: AuthState)
    ensures ErrorsCleared(st).(errors := st.errors) == st
    ensures IsAuthenticated(ErrorsCleared(st)) == IsAuthenticated(st)
    ensures ErrorsCleared(ErrorsCleared(st)) == ErrorsCleared(st)
  {
  }

  class Auth {
    var user: Option<User>
    var token: Option<string>
    var errors: Errors
    var storage: map<string, string>

    function State(): AuthState
      reads this
    {
      AuthState(user, token, errors, storage)
    }

    constructor (storage: map<string, string>)
      ensures State() == InitialAuthState(storage)
    {
      user := None;
      token := None;
      errors := map[];
      this.storage := storage;
    }

    /** The shared body of login and register; `generic` is each one's fallback message. */
    method Authenticate(outcome: AuthOutcome, generic: string, stringify: Option<User> -> string) returns (ok: bool)
      modifies this
      ensures (State(), ok) == Authenticated(old(State()), outcome, generic, stringify)
    {
      match outcome {
        case Accepted(u, t) =>
          user := u;
          token := t;
          storage := storage["user" := stringify(u)];
          storage := storage["token" := if t.Some? then t.value else "undefined"];
          errors := map[];
          return true;
        case Rejected(body) =>
          if body.Some? {
            errors := if body.value.errors.Some? then body.value.errors.value else map["general" := [body.value.message]];
          } else {
            errors := map["general" := [Some(generic)]];
          }
          return false;
      }
    }

    method Login(credentials: map<string, string>, respond: map<string, string> -> AuthOutcome,
                 stringify: Option<User> -> string) returns (ok: bool)
      modifies this
      ensures (State(), ok) == Authenticated(old(State()), respond(credentials), LoginError, stringify)
    {
      ok := Authenticate(respond(credentials), LoginError, stringify);
    }

    method Register(userData: map<string, string>, respond: map<string, string> -> AuthOutcome,
                    stringify: Option<User> -> string) returns (ok: bool)
      modifies this
      ensures (State(), ok) == Authenticated(old(State()), respond(userData), RegisterError, stringify)
    {
      ok := Authenticate(respond(userData), RegisterError, stringify);
    }

    method Logout()
      modifies this
      ensures State() == LoggedOut(old(State()))
    {
      user := None;
      token := None;
      errors := map[];
    }

    method ClearErrors()
      modifies this
      ensures State() == ErrorsCleared(old(State()))
    {
      errors := map[];
    }
  }
}
