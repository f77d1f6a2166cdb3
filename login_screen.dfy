/** The login screen's handlers (app/auth/login.tsx): the empty-field check
    before the session manager's `login`, and where the screen goes once it
    settles. How the awaited `login` settles is an input. */
module LoginScreen {

  import opened Common
  import opened Ui
  import Api
  import AuthContext
  import RegisterScreen

  const FAILED_TITLE := "Login Failed"
  const FAILED_FALLBACK := "Invalid credentials"

  /** The record of one `handleLogin` run: the `login` call made, the alert
      shown and the navigation performed. */
  datatype LoginRun = LoginRun(loginCall: Option<(string, string)>, alert: Option<Alert>,
                               navigation: Option<Navigation>)

  /** `handleLogin`: an empty email or password stops it with an alert;
      otherwise `login(email, password)` is awaited. On success the screen
      goes back when `returning_to` is truthy and replaces itself with the
      tabs otherwise; on failure it alerts the error's message, or "Invalid
      credentials", and stays. */
  function HandleLogin(email: string, password: string, returningTo: Option<string>,
                       loginResult: Outcome<()>): LoginRun
  {
    if email == "" || password == "" then
      LoginRun(None, Some(Alert("Error", FILL_ALL_FIELDS, None)), None)
    else
      match loginResult
      case Ok(_) => LoginRun(Some((email, password)), None,
                             Some(if Truthy(returningTo) then Back else Replace(TABS_PATH)))
      case Err(message) =>
        LoginRun(Some((email, password)), Some(Alert(FAILED_TITLE, OrElse(message, FAILED_FALLBACK), None)), None)
  }

  /** `goToRegister`. */
  function GoToRegister(returningTo: Option<string>): Navigation
  {
    Push(REGISTER_PATH, returningTo)
  }

  /** Moving between the two authentication screens never loses the
      `returning_to` parameter: login pushes the register screen with it,
      and register pushes the login screen with it, both unchanged. */
  lemma AuthScreensForwardReturnTarget(returningTo: Option<string>)
    ensures GoToRegister(returningTo) == Push(REGISTER_PATH, returningTo)
    ensures RegisterScreen.GoToLogin(GoToRegister(returningTo).returningTo) == Push(LOGIN_PATH, returningTo)
  {
  }

  /** `login` is called exactly when both fields are non-empty (there is no
      length check here), and with them as typed; it navigates exactly when
      that call succeeds, and shows an alert exactly when it does not
      navigate. */
  lemma LoginCalledOnlyWithBothFields(email: string, password: string, returningTo: Option<string>,
                                      loginResult: Outcome<()>)
    ensures var run := HandleLogin(email, password, returningTo, loginResult);
      && (run.loginCall.Some? <==> email != "" && password != "")
      && (run.loginCall.Some? ==> run.loginCall.value == (email, password))
      && (run.loginCall.None? ==> run.alert == Some(Alert("Error", FILL_ALL_FIELDS, None)))
      && (run.navigation.Some? <==> run.loginCall.Some? && loginResult.Ok?)
      && (run.alert.Some? <==> run.navigation.None?)
  {
  }

  /** After a successful login the screen goes back to where the user came
      from when `returning_to` is truthy, and to the tabs otherwise; a
      failure shows the error's message, or "Invalid credentials". */
  lemma PostLoginNavigation(email: string, password: string, returningTo: Option<string>,
                            loginResult: Outcome<()>)
    requires email != "" && password != ""
    ensures var run := HandleLogin(email, password, returningTo, loginResult);
      && (loginResult.Ok? && Truthy(returningTo) ==> run.navigation == Some(Back))
      && (loginResult.Ok? && !Truthy(returningTo) ==> run.navigation == Some(Replace(TABS_PATH)))
      && (loginResult.Err? ==> run.alert == Some(Alert(FAILED_TITLE,
            if loginResult.message != "" then loginResult.message else FAILED_FALLBACK, None)))
  {
  }

  /** Taken together with the session manager and the client: a first
      login on a fresh install that the server accepts with a non-empty
      token leaves the session authenticated and the screen navigating;
      one the server refuses shows the client's message. */
  lemma LoginEndToEnd(email: string, password: string, returningTo: Option<string>, now: string,
                      response: Api.HttpResponse<Api.LoginResponse>)
    requires email != "" && password != ""
    ensures var step := AuthContext.AfterLogin(AuthContext.Mounted(map[]), email, Api.Settle(Api.Responded(response)), now);
      var result := if step.thrown.Some? then Err(step.thrown.value) else Ok(());
      var run := HandleLogin(email, password, returningTo, result);
      && (!response.Ok() ==> run.alert == Some(Alert(FAILED_TITLE, Api.ErrorMessage(response), None)))
      && (response.Ok() && response.json.Parsed? && response.json.value.authentication_token.token != "" ==>
            AuthContext.Authenticated(step.after) && run.navigation.Some?)
  {
    if response.Ok() && response.json.Parsed? {
      AuthContext.LoginSuccess(AuthContext.Mounted(map[]), email, response.json.value, now);
    }
  }
}
