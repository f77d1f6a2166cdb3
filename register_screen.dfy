/** The registration screen's handlers (app/auth/register.tsx): the checks
    `handleRegister` makes before calling the session manager's `register`,
    the alert it then shows, and the OK button that leads on to login. How
    the awaited `register` settles is an input. */
module RegisterScreen {

  import opened Common
  import opened Ui
  import Api
  import AuthContext

  const MIN_PASSWORD_LENGTH := 8
  const SHORT_PASSWORD := "Password must be at least 8 characters"
  const REGISTERED_TITLE := "Registration Successful"
  const REGISTERED_MESSAGE := "Please check your email to activate your account. After activation, you can log in."
  const FAILED_TITLE := "Registration Failed"
  const FAILED_FALLBACK := "An error occurred"

  datatype Credentials = Credentials(username: string, email: string, password: string)

  /** `s.length`: JavaScript counts UTF-16 code units, so a character
      outside the Basic Multilingual Plane counts twice. */
  function Utf16Length(s: string): (n: nat)
    ensures n >= |s|
  {
    if s == [] then 0 else (if s[0] as int > 0xFFFF then 2 else 1) + Utf16Length(s[1..])
  }

  predicate IsBmp(s: string)
  {
    forall i :: 0 <= i < |s| ==> s[i] as int <= 0xFFFF
  }

  /** The record of one `handleRegister` run: whether `register` was called
      and with what, and the alert shown. */
  datatype RegisterRun = RegisterRun(registerCall: Option<Credentials>, alert: Alert)

  /** `handleRegister`: every field must be non-empty, then the password
      must be at least 8 long; only then is `register(username, email,
      password)` awaited. Success shows an alert whose OK pushes the login
      screen with `returning_to` forwarded; failure shows the error's
      message, or "An error occurred", and navigates nowhere. */
  function HandleRegister(username: string, email: string, password: string,
                          returningTo: Option<string>, registerResult: Outcome<()>): RegisterRun
  {
    if username == "" || email == "" || password == "" then
      RegisterRun(None, Alert("Error", FILL_ALL_FIELDS, None))
    else if Utf16Length(password) < MIN_PASSWORD_LENGTH then
      RegisterRun(None, Alert("Error", SHORT_PASSWORD, None))
    else
      var call := Some(Credentials(username, email, password));
      match registerResult
      case Ok(_) => RegisterRun(call, Alert(REGISTERED_TITLE, REGISTERED_MESSAGE, Some(GoToLogin(returningTo))))
      case Err(message) => RegisterRun(call, Alert(FAILED_TITLE, OrElse(message, FAILED_FALLBACK), None))
  }

  /** `goToLogin`. */
  function GoToLogin(returningTo: Option<string>): Navigation
  {
    Push(LOGIN_PATH, returningTo)
  }

  lemma {:induction false} Utf16LengthOfBmp(s: string)
    requires IsBmp(s)
    ensures Utf16Length(s) == |s|
  {
    if s != [] {
      assert IsBmp(s[1..]) by {
        forall i | 0 <= i < |s[1..]| ensures s[1..][i] as int <= 0xFFFF {
          assert s[1..][i] == s[i + 1];
        }
      }
      Utf16LengthOfBmp(s[1..]);
    }
  }

  /** The length adds up over concatenation, and one character counts 2
      exactly when it lies above U+FFFF: together these fix the length of
      every string. */
  lemma {:induction false} Utf16LengthOfConcat(a: string, b: string)
    ensures Utf16Length(a + b) == Utf16Length(a) + Utf16Length(b)
    ensures forall c: char :: Utf16Length([c]) == if c as int > 0xFFFF then 2 else 1
  {
    if a != [] {
      assert (a + b)[0] == a[0];
      assert (a + b)[1..] == a[1..] + b;
      Utf16LengthOfConcat(a[1..], b);
    } else {
      assert a + b == b;
    }
  }

  /** `register` is called exactly when no field is empty and the password
      is at least 8 UTF-16 code units long, and then with the three fields
      as typed. An empty field is reported before a short password. */
  lemma RegisterCalledOnlyWhenValid(username: string, email: string, password: string,
                                    returningTo: Option<string>, registerResult: Outcome<()>)
    ensures var run := HandleRegister(username, email, password, returningTo, registerResult);
      && (run.registerCall.Some? <==> username != "" && email != "" && password != "" && Utf16Length(password) >= 8)
      && (run.registerCall.Some? ==> run.registerCall.value == Credentials(username, email, password))
      && ((username == "" || email == "" || password == "") ==> run.alert == Alert("Error", FILL_ALL_FIELDS, None))
  {
  }

  /** On a password of ordinary characters the boundary is its length: 7
      is refused before any call, 8 goes on to `register`. */
  lemma PasswordLengthBoundary(username: string, email: string, password: string,
                               returningTo: Option<string>, registerResult: Outcome<()>)
    requires username != "" && email != "" && password != "" && IsBmp(password)
    ensures var run := HandleRegister(username, email, password, returningTo, registerResult);
      && (|password| < 8 <==> run.registerCall.None?)
      && (|password| < 8 ==> run.alert == Alert("Error", SHORT_PASSWORD, None))
  {
    Utf16LengthOfBmp(password);
  }

  /** Four characters outside the Basic Multilingual Plane already make a
      long enough password. */
  lemma AstralPasswordPasses(username: string, email: string, returningTo: Option<string>,
                             registerResult: Outcome<()>)
    requires username != "" && email != ""
    ensures HandleRegister(username, email, "\U{1F600}\U{1F600}\U{1F600}\U{1F600}", returningTo, registerResult)
              .registerCall.Some?
  {
    var p := "\U{1F600}\U{1F600}\U{1F600}\U{1F600}";
    assert p[1..][1..][1..][1..] == [];
  }

  /** After `register` the screen only ever leads to the login screen, with
      `returning_to` forwarded unchanged, and only from the success alert. */
  lemma RegisterOutcomeRouting(username: string, email: string, password: string,
                               returningTo: Option<string>, registerResult: Outcome<()>)
    requires HandleRegister(username, email, password, returningTo, registerResult).registerCall.Some?
    ensures var run := HandleRegister(username, email, password, returningTo, registerResult);
      && (registerResult.Ok? ==>
            && run.alert.title == REGISTERED_TITLE
            && run.alert.onOk == Some(Push(LOGIN_PATH, returningTo)))
      && (registerResult.Err? ==>
            && run.alert.title == FAILED_TITLE && run.alert.onOk.None?
            && run.alert.message == OrElse(registerResult.message, FAILED_FALLBACK))
  {
  }

  /** Taken together with the session manager and the client: when the
      server refuses a registration, the alert shows the message the client
      derived from the response, never the fallback. */
  lemma ServerRefusalReachesTheAlert(username: string, email: string, password: string,
                                     returningTo: Option<string>, s: AuthContext.Session,
                                     response: Api.HttpResponse<Api.RegisterResponse>)
    requires username != "" && email != "" && Utf16Length(password) >= 8
    requires !response.Ok()
    ensures var step := AuthContext.AfterRegister(s, Api.Settle(Api.Responded(response)));
      var result := if step.thrown.Some? then Err(step.thrown.value) else Ok(());
      HandleRegister(username, email, password, returningTo, result).alert
        == Alert(FAILED_TITLE, Api.ErrorMessage(response), None)
  {
  }
}
