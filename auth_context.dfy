/** The session manager (contexts/AuthContext.tsx): the in-memory state
    `{user, token, loading, error}` over a persistent key-value store that
    holds the token under TOKEN_KEY and the JSON text of the user under
    USER_KEY.

    Each operation is specified by a function from the state before to the
    state after (`AfterRestore`, `AfterLogin`, ...); the class `AuthProvider`
    performs the same operation step by step on its fields, in the order the
    source calls its setters and storage functions, and its methods are
    proved to end in the state the function gives. The result of the API call
    an operation awaits is an input (`Outcome`); storage is a map. */
module AuthContext {

  import opened Common
  import opened Api
  import opened UserJson

  const TOKEN_KEY := "@animeverse_token"
  const USER_KEY := "@animeverse_user"

  /** Stands for the message of the SyntaxError `JSON.parse` throws on text
      it cannot read as a user (the wording is the JavaScript engine's). */
  const PARSE_ERROR_MESSAGE := "JSON Parse error: Unexpected token"

  const LOGIN_FAILED := "Login failed"
  const REGISTRATION_FAILED := "Registration failed"

  /** AsyncStorage: key to stored text. */
  type Storage = map<string, string>

  datatype Session = Session(user: Option<User>, token: Option<string>, loading: bool,
                             error: Option<string>, storage: Storage)

  /** The state after an operation and the message of the error it
      rethrows, if it rethrows one. */
  datatype Step = Step(after: Session, thrown: Option<string>)

  /** `AsyncStorage.getItem(key)`: the stored text, or null. */
  function GetItem(storage: Storage, key: string): Option<string>
  {
    if key in storage then Some(storage[key]) else None
  }

  /** `isAuthenticated`: `!!token && !!user`. */
  predicate Authenticated(s: Session)
  {
    Truthy(s.token) && s.user.Some?
  }

  /** The state the provider mounts with, over what is already stored. */
  function Mounted(persisted: Storage): Session
  {
    Session(None, None, true, None, persisted)
  }

  /** `email.split('@')[0]`: the text before the first '@', or all of it. */
  function UsernameFromEmail(email: string): (r: string)
    ensures |r| <= |email| && email[..|r|] == r
    ensures '@' !in r
    ensures |r| < |email| ==> email[|r|] == '@'
  {
    if email == [] || email[0] == '@' then [] else [email[0]] + UsernameFromEmail(email[1..])
  }

  /** The placeholder user login builds when no stored user has the email. */
  function SynthesizedUser(email: string, now: string): User
  {
    User("", UsernameFromEmail(email), email, true, now)
  }

  /** `loadStoredAuth`: read both keys; when both hold non-empty text, set
      the token and then the parsed user. Any failure (a read that rejects,
      a parse that throws) is caught, and `loading` ends false in every
      case. Nothing is written and no request is made. */
  function AfterRestore(s: Session, readFails: bool): Session
  {
    if readFails then s.(loading := false)
    else
      var storedToken := GetItem(s.storage, TOKEN_KEY);
      var storedUser := GetItem(s.storage, USER_KEY);
      if Truthy(storedToken) && Truthy(storedUser) then
        var withToken := s.(token := storedToken);
        match DecodeUser(storedUser.value)
        case Some(u) => withToken.(user := Some(u), loading := false)
        case None => withToken.(loading := false)
      else s.(loading := false)
  }

  /** The catch and finally blocks: record `err.message || fallback`, stop
      loading and rethrow. */
  function Failed(s: Session, message: string, fallback: string): Step
  {
    Step(s.(error := Some(OrElse(message, fallback)), loading := false), Some(message))
  }

  function Done(s: Session): Step
  {
    Step(s.(loading := false), None)
  }

  /** `login(email, password)`, given how `apiClient.loginUser(email,
      password)` settled and the clock reading `now`. */
  function AfterLogin(s: Session, email: string, response: Outcome<LoginResponse>, now: string): Step
  {
    var started := s.(error := None, loading := true);
    match response
    case Err(message) => Failed(started, message, LOGIN_FAILED)
    case Ok(resp) =>
      var authToken := resp.authentication_token.token;
      var withToken := started.(storage := started.storage[TOKEN_KEY := authToken], token := Some(authToken));
      var storedUser := GetItem(withToken.storage, USER_KEY);
      if Truthy(storedUser) && DecodeUser(storedUser.value).None? then
        Failed(withToken, PARSE_ERROR_MESSAGE, LOGIN_FAILED)
      else if Truthy(storedUser) && DecodeUser(storedUser.value).value.email == email then
        Done(withToken.(user := DecodeUser(storedUser.value)))
      else
        var userObj := SynthesizedUser(email, now);
        Done(withToken.(storage := withToken.storage[USER_KEY := EncodeUser(userObj)], user := Some(userObj)))
  }

  /** `register(username, email, password)`, given how
      `apiClient.registerUser` settled. */
  function AfterRegister(s: Session, response: Outcome<RegisterResponse>): Step
  {
    var started := s.(error := None, loading := true);
    match response
    case Err(message) => Failed(started, message, REGISTRATION_FAILED)
    case Ok(resp) =>
      Done(started.(storage := started.storage[USER_KEY := EncodeUser(resp.user)], user := Some(resp.user)))
  }

  /** `logout()`: both removals are started together; each key whose removal
      succeeded is gone. Only when both succeed are token and user cleared;
      otherwise the rejection is caught and logged, and nothing is
      rethrown. */
  function AfterLogout(s: Session, tokenRemoved: bool, userRemoved: bool): Session
  {
    var removed := (if tokenRemoved then {TOKEN_KEY} else {}) + (if userRemoved then {USER_KEY} else {});
    var s1 := s.(storage := s.storage - removed);
    if tokenRemoved && userRemoved then s1.(token := None, user := None) else s1
  }

  /** `clearError()`. */
  function AfterClearError(s: Session): Session
  {
    s.(error := None)
  }

  lemma KeysDiffer()
    ensures TOKEN_KEY != USER_KEY
  {
    assert |TOKEN_KEY| != |USER_KEY|;
  }

  // ---------------------------------------------------------------------
  // Properties of the operations

  /** Restoring from the mounted state sets the token only when both keys
      hold non-empty text, and the user only when, in addition, the stored
      user parses; it never writes storage, never sets an error, and
      `loading` ends false. The session is authenticated afterwards exactly
      when a non-empty token and a readable user are stored. */
  lemma RestoreFromMount(persisted: Storage, readFails: bool)
    ensures var r := AfterRestore(Mounted(persisted), readFails);
      && !r.loading && r.storage == persisted && r.error.None?
      && (r.token.Some? <==> !readFails && Truthy(GetItem(persisted, TOKEN_KEY)) && Truthy(GetItem(persisted, USER_KEY)))
      && (r.token.Some? ==> r.token == GetItem(persisted, TOKEN_KEY))
      && (r.user.Some? <==> r.token.Some? && DecodeUser(persisted[USER_KEY]).Some?)
      && (r.user.Some? ==> r.user == DecodeUser(persisted[USER_KEY]))
      && (Authenticated(r) <==> r.user.Some?)
  {
  }

  /** Restoring twice from the same store gives the same session as
      restoring once. */
  lemma RestoreIdempotent(s: Session, readFails: bool)
    ensures AfterRestore(AfterRestore(s, readFails), readFails) == AfterRestore(s, readFails)
  {
  }

  /** A failed login call leaves token, user and storage as they were,
      records the error's message (or "Login failed" when it is empty),
      rethrows it, and ends with `loading` false. */
  lemma LoginFailureChangesNothingElse(s: Session, email: string, message: string, now: string)
    ensures var step := AfterLogin(s, email, Err(message), now);
      && step.after == s.(error := Some(if message != "" then message else LOGIN_FAILED), loading := false)
      && step.thrown == Some(message)
  {
  }

  /** A successful login call writes the returned token to storage and to
      `token`. When the stored user has the login email, that user becomes
      `user` and the user key is not rewritten; when no user is stored or
      its email differs, a placeholder user is built and written. No other
      key changes, the error is cleared and `loading` ends false. */
  lemma LoginSuccess(s: Session, email: string, resp: LoginResponse, now: string)
    requires var stored := GetItem(s.storage, USER_KEY);
             !Truthy(stored) || DecodeUser(stored.value).Some?
    ensures var step := AfterLogin(s, email, Ok(resp), now);
      var t := resp.authentication_token.token;
      var stored := GetItem(s.storage, USER_KEY);
      var keep := Truthy(stored) && DecodeUser(stored.value).value.email == email;
      && step.thrown.None? && step.after.error.None? && !step.after.loading
      && step.after.token == Some(t) && TOKEN_KEY in step.after.storage && step.after.storage[TOKEN_KEY] == t
      && (keep ==> step.after.user == DecodeUser(stored.value) && step.after.storage == s.storage[TOKEN_KEY := t])
      && (!keep ==>
            && step.after.user == Some(SynthesizedUser(email, now))
            && step.after.storage == s.storage[TOKEN_KEY := t][USER_KEY := EncodeUser(SynthesizedUser(email, now))])
      && (Authenticated(step.after) <==> t != "")
  {
    KeysDiffer();
  }

  /** The placeholder user has an empty id, the part of the email before its
      first '@' as username, the login email, and is marked activated. */
  lemma SynthesizedUserShape(email: string, now: string)
    ensures var u := SynthesizedUser(email, now);
      && u.id == "" && u.email == email && u.activated && u.created_at == now
      && '@' !in u.username
      && (('@' in email) ==> email[..|u.username| + 1] == u.username + "@")
      && (('@' !in email) ==> u.username == email)
  {
    var name := UsernameFromEmail(email);
    if '@' in email {
      assert email[..|name| + 1] == email[..|name|] + [email[|name|]];
    } else {
      assert email[..|email|] == email;
    }
  }

  /** When a stored user is present but cannot be parsed, the token has
      already been written when `JSON.parse` throws: login fails with the
      parse error, yet the new token is stored and set. */
  lemma LoginWithUnreadableStoredUser(s: Session, email: string, resp: LoginResponse, now: string)
    requires Truthy(GetItem(s.storage, USER_KEY)) && DecodeUser(s.storage[USER_KEY]).None?
    ensures var step := AfterLogin(s, email, Ok(resp), now);
      && step.thrown == Some(PARSE_ERROR_MESSAGE)
      && step.after.error == Some(PARSE_ERROR_MESSAGE)
      && step.after.token == Some(resp.authentication_token.token)
      && step.after.storage == s.storage[TOKEN_KEY := resp.authentication_token.token]
      && step.after.user == s.user
      && !step.after.loading
  {
    KeysDiffer();
  }

  /** Errors thrown by the client for a response that is not ok always
      carry a non-empty message, so the "Login failed" and "Registration
      failed" fallbacks are never what such a failure records. */
  lemma ClientErrorsReachTheSession(s: Session, email: string, now: string,
                                    loginResponse: HttpResponse<LoginResponse>,
                                    registerResponse: HttpResponse<RegisterResponse>)
    requires !loginResponse.Ok() && !registerResponse.Ok()
    ensures AfterLogin(s, email, Settle(Responded(loginResponse)), now).after.error
              == Some(ErrorMessage(loginResponse))
    ensures AfterRegister(s, Settle(Responded(registerResponse))).after.error
              == Some(ErrorMessage(registerResponse))
  {
  }

  /** Registration stores the returned user under the user key and in
      `user`, and never reads or writes the token: the session is
      authenticated afterwards only if it already held a token. */
  lemma RegisterLeavesTokenAlone(s: Session, response: Outcome<RegisterResponse>)
    ensures var step := AfterRegister(s, response);
      && step.after.token == s.token
      && GetItem(step.after.storage, TOKEN_KEY) == GetItem(s.storage, TOKEN_KEY)
      && (response.Ok? ==>
            && step.after.user == Some(response.value.user)
            && step.after.storage == s.storage[USER_KEY := EncodeUser(response.value.user)]
            && step.thrown.None? && step.after.error.None?)
      && (response.Err? ==>
            && step.after == s.(error := Some(OrElse(response.message, REGISTRATION_FAILED)), loading := false)
            && step.thrown == Some(response.message))
      && !step.after.loading
      && (Authenticated(step.after) ==> Truthy(s.token))
  {
    KeysDiffer();
  }

  /** A successful logout removes both keys and clears token and user; a
      failed removal leaves token and user in memory as they were (the keys
      whose removal succeeded are still gone). The error and loading flags
      are never touched. */
  lemma LogoutOutcome(s: Session, tokenRemoved: bool, userRemoved: bool)
    ensures var r := AfterLogout(s, tokenRemoved, userRemoved);
      && r.error == s.error && r.loading == s.loading
      && (tokenRemoved ==> TOKEN_KEY !in r.storage)
      && (userRemoved ==> USER_KEY !in r.storage)
      && (forall k :: k in s.storage && k != TOKEN_KEY && k != USER_KEY ==> k in r.storage && r.storage[k] == s.storage[k])
      && (tokenRemoved && userRemoved ==> r.token.None? && r.user.None? && !Authenticated(r))
      && (!(tokenRemoved && userRemoved) ==> r.token == s.token && r.user == s.user)
      && (forall k :: k in r.storage ==> k in s.storage)
      && (!tokenRemoved ==> GetItem(r.storage, TOKEN_KEY) == GetItem(s.storage, TOKEN_KEY))
      && (!userRemoved ==> GetItem(r.storage, USER_KEY) == GetItem(s.storage, USER_KEY))
  {
  }

  /** `clearError` changes the error and nothing else. */
  lemma ClearErrorOnlyClearsError(s: Session)
    ensures var r := AfterClearError(s);
      r.error.None? && r.(error := s.error) == s
  {
  }

  /** What login writes is what a later restore reads: after a successful
      login with a non-empty token, a restarted app restores the same token
      and the same user, and is authenticated. */
  lemma LoginSurvivesRestart(s: Session, email: string, resp: LoginResponse, now: string)
    requires var stored := GetItem(s.storage, USER_KEY);
             !Truthy(stored) || DecodeUser(stored.value).Some?
    requires resp.authentication_token.token != ""
    ensures var after := AfterLogin(s, email, Ok(resp), now).after;
      var restored := AfterRestore(Mounted(after.storage), false);
      && restored.token == after.token
      && restored.user == after.user
      && Authenticated(restored)
  {
    KeysDiffer();
    var t := resp.authentication_token.token;
    var stored := GetItem(s.storage, USER_KEY);
    var after := AfterLogin(s, email, Ok(resp), now).after;
    if !(Truthy(stored) && DecodeUser(stored.value).value.email == email) {
      DecodeEncodeUser(SynthesizedUser(email, now));
      assert EncodeUser(SynthesizedUser(email, now)) != "";
    }
    assert after.storage[USER_KEY] != "";
  }

  /** After a successful logout a restarted app restores no session. */
  lemma LogoutSurvivesRestart(s: Session)
    ensures !Authenticated(AfterRestore(Mounted(AfterLogout(s, true, true).storage), false))
  {
  }

  /** The scenario of a first login on a fresh install: email
      "user@x.com", token "abc123", nothing stored before. */
  lemma FirstLoginScenario(now: string)
    ensures var resp := LoginResponse(AuthToken("abc123", "2025-01-01T00:00:00Z"));
      var step := AfterLogin(Mounted(map[]), "user@x.com", Ok(resp), now);
      var u := User("", "user", "user@x.com", true, now);
      && step.thrown.None?
      && step.after.storage == map[TOKEN_KEY := "abc123", USER_KEY := EncodeUser(u)]
      && step.after.token == Some("abc123") && step.after.user == Some(u)
      && Authenticated(step.after)
  {
    var email := "user@x.com";
    assert email[4] == '@';
    assert UsernameFromEmail(email) == "user";
  }

  // ---------------------------------------------------------------------
  // The provider: the same operations performed on fields

  class AuthProvider {
    var user: Option<User>
    var token: Option<string>
    var loading: bool
    var error: Option<string>
    var storage: Storage

    function State(): Session
      reads this
    {
      Session(user, token, loading, error, storage)
    }

    /** `isAuthenticated` as the provider exposes it. */
    predicate IsAuthenticated()
      reads this
    {
      Authenticated(State())
    }

    /** Mounting the provider over what the store already holds; the mount
        effect then calls LoadStoredAuth. */
    constructor (persisted: Storage)
      ensures State() == Mounted(persisted)
    {
      user, token, loading, error := None, None, true, None;
      storage := persisted;
    }

    method LoadStoredAuth(readFails: bool)
      modifies this
      ensures State() == AfterRestore(old(State()), readFails)
    {
      if !readFails {
        var storedToken := GetItem(storage, TOKEN_KEY);
        var storedUser := GetItem(storage, USER_KEY);
        if Truthy(storedToken) && Truthy(storedUser) {
          token := storedToken;
          var parsed := DecodeUser(storedUser.value);
          if parsed.Some? {
            user := parsed;
          }
        }
      }
      loading := false;
    }

    method Login(email: string, password: string, response: Outcome<LoginResponse>, now: string)
      returns (thrown: Option<string>)
      modifies this
      ensures Step(State(), thrown) == AfterLogin(old(State()), email, response, now)
    {
      error := None;
      loading := true;
      if response.Err? {
        error := Some(OrElse(response.message, LOGIN_FAILED));
        loading := false;
        return Some(response.message);
      }
      var authToken := response.value.authentication_token.token;
      storage := storage[TOKEN_KEY := authToken];
      token := Some(authToken);
      var storedUser := GetItem(storage, USER_KEY);
      if Truthy(storedUser) {
        var parsedUser := DecodeUser(storedUser.value);
        if parsedUser.None? {
          error := Some(OrElse(PARSE_ERROR_MESSAGE, LOGIN_FAILED));
          loading := false;
          return Some(PARSE_ERROR_MESSAGE);
        }
        if parsedUser.value.email == email {
          user := parsedUser;
          loading := false;
          return None;
        }
      }
      var userObj := SynthesizedUser(email, now);
      storage := storage[USER_KEY := EncodeUser(userObj)];
      user := Some(userObj);
      loading := false;
      thrown := None;
    }

    method Register(username: string, email: string, password: string, response: Outcome<RegisterResponse>)
      returns (thrown: Option<string>)
      modifies this
      ensures Step(State(), thrown) == AfterRegister(old(State()), response)
    {
      error := None;
      loading := true;
      if response.Err? {
        error := Some(OrElse(response.message, REGISTRATION_FAILED));
        loading := false;
        return Some(response.message);
      }
      var userObj := response.value.user;
      storage := storage[USER_KEY := EncodeUser(userObj)];
      user := Some(userObj);
      loading := false;
      thrown := None;
    }

    method Logout(tokenRemoved: bool, userRemoved: bool)
      modifies this
      ensures State() == AfterLogout(old(State()), tokenRemoved, userRemoved)
    {
      if tokenRemoved {
        storage := storage - {TOKEN_KEY};
      }
      if userRemoved {
        storage := storage - {USER_KEY};
      }
      if tokenRemoved && userRemoved {
        token := None;
        user := None;
      }
    }

    method ClearError()
      modifies this
      ensures State() == AfterClearError(old(State()))
    {
      error := None;
    }
  }
}
