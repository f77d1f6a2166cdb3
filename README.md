# animeVerse client core, modelled in Dafny

animeVerse is a React Native front end for browsing anime and keeping a
personal watch list. It talks to a small personal backend for accounts and
list entries. Most of its code renders screens. This project models the
parts that decide things:

- **Session manager** (`contexts/AuthContext.tsx`). The state is
  `{user, token, loading, error}` over a two-key persistent store
  (`@animeverse_token`, `@animeverse_user`). The operations are restore on
  mount, `login`, `register`, `logout`, `clearError`, and the derived
  `isAuthenticated`. Each operation is a function from the state before to
  the state after (module `AuthContext`). The class `AuthProvider` runs the
  same steps on its fields, in the source's order, and is proved to reach
  the state that function gives.
- **API client** (`utils/api.ts`). Covers how `request` builds the URL and
  merges headers (a JavaScript object spread, modelled as an ordered
  property list), how a settled `fetch` becomes a result or a thrown
  message, and the endpoint, method, headers and body of the five public
  calls.
- **Stored user text.** `JSON.stringify` and `JSON.parse` of a `User`, with
  strings quoted as in section 25.5.2.3 of ECMA-262. The round trip is
  proved, and so is the consequence that a restarted app restores exactly
  the session a login wrote.
- **Numbers.** The global `parseInt` of section 19.2.5 of ECMA-262 and
  `Number#toString` for integers, with `parseInt(toString(n)) == n`.
- **Save-to-list form** (`components/SaveAnimeModal.tsx`). Covers how the
  initial fields are derived, including the `'0001-01-01'` "no date" value,
  the score filter, and `handleSave`'s checks and payload.
- **Login and registration screens** (`app/auth/login.tsx`,
  `app/auth/register.tsx`). Covers the guard chains, which call goes out
  and with what, the alert shown and where navigation goes.
- **Activation screen** (`app/activate.tsx`). Covers the effect that moves
  the screen from `loading` to `success` or `error`.

Inputs stand in for the outside world:

- How an awaited call settles is an `Outcome` (`Ok` or `Err(message)`).
- A `fetch` is a `FetchResult`.
- AsyncStorage is a `map<string, string>`.
- The clock readings (`now`, `today`) are parameters.
- Alerts and router calls are recorded values.

Notes on where the model follows the code rather than a looser reading of
it:

- **`parseInt` with no radix.** The source calls `parseInt(text)` without a
  radix. ECMA-262 then reads a `0x`/`0X` prefix as hexadecimal, so
  `"0x1A"` is 26 episodes. The model includes this prefix rule. It also
  skips every StrWhiteSpaceChar and stops at the first non-digit, so
  `"7abc"` reads as 7.
- **An unreadable stored user on restore.** `loadStoredAuth` sets the token
  before it parses the stored user (lines 41-42). So when the stored user
  cannot be parsed, the token is set and the user stays null. Both keys
  being stored is therefore not enough to restore a session
  (`AuthContext.RestoreFromMount`).
- **An unreadable stored user on login.** `login` stores and sets the new
  token before it parses the stored user. A stored user that cannot be
  parsed therefore makes the login fail while the new token stays stored
  and set (`AuthContext.LoginWithUnreadableStoredUser`).
- **No atomic write, no profile refresh, no unconditional logout.** The
  session code does not write token and user as one step, does not refresh
  the profile on restore, and does not clear the session when a removal
  fails. The model keeps each of these gaps:
  - the token is written before the user;
  - no profile request is made;
  - a failed key removal leaves token and user in memory.
- **Password length.** `password.length` counts UTF-16 code units, so a
  character outside the Basic Multilingual Plane counts twice
  (`RegisterScreen.Utf16Length`).

## Model

| member | source | states |
|---|---|---|
| `Numbers.TrimStart` | components/SaveAnimeModal.tsx:63 | what is left after the leading white space of `parseInt`'s input never starts with white space |
| `Numbers.TrimStartIsSuffix` | components/SaveAnimeModal.tsx:63 | what is left is a suffix of the input, and every character dropped is white space |
| `Numbers.DigitPrefixLength` | components/SaveAnimeModal.tsx:104 | `parseInt` reads the longest digit prefix: every character before the returned length is a digit, and the one at it is not |
| `Numbers.DigitsValue` | components/SaveAnimeModal.tsx:104 | the value of a digit string, most significant digit first; no contract of its own, pinned by `DecimalValue` |
| `Numbers.ParseInt` | components/SaveAnimeModal.tsx:63 | `parseInt` with no radix: trim, sign, optional `0x`, longest digit prefix, NaN when empty; no contract of its own, specified by `ParseIntSignedNumeral`, `ParseIntHexNumeral`, `ParseIntNaNWithoutLeadingDigit`, `ParseIntHexWithoutDigits`, `NoDigitsIsNaN`, `ParseIntSkipsWhiteSpace` and `ParseIntOfToString` |
| `Numbers.ParseSigned` | components/SaveAnimeModal.tsx:63 | the sign step of `parseInt`; specified by `ParseIntOfSigned` ("-" negates, "+" and no sign keep the magnitude) |
| `Numbers.ParseMagnitude` | components/SaveAnimeModal.tsx:63 | the `0x`/`0X` prefix selects radix 16, otherwise radix 10; specified by `MagnitudeOfHex` and `MagnitudeOfNumeral` |
| `Numbers.ParseDigits` | components/SaveAnimeModal.tsx:104 | the longest digit prefix, NaN when it is empty; specified through `DigitPrefixLength`'s contract and `ParseIntStopsAtNonDigit` |
| `Numbers.NatToDecimal` | utils/api.ts:74 | the decimal rendering of a number in `HTTP ${status}` is non-empty, all digits, and has no leading zero |
| `Numbers.IntToString` | components/SaveAnimeModal.tsx:47 | `toString` of an episode number is never empty, so the `'0'` default applies only when the episode is undefined |
| `Numbers.DecimalValue` | components/SaveAnimeModal.tsx:47 | the digits `toString` writes denote the number itself |
| `Numbers.ParseIntOfToString` | components/SaveAnimeModal.tsx:47-63 | `parseInt` reads back every integer `toString` writes, negative ones included |
| `Numbers.TrimStartSkips` | components/SaveAnimeModal.tsx:63 | a leading run of white space is dropped entirely |
| `Numbers.ParseIntSkipsWhiteSpace` | components/SaveAnimeModal.tsx:63 | leading white space never changes what `parseInt` reads |
| `Numbers.DigitPrefixOfConcat` | components/SaveAnimeModal.tsx:104 | digit reading stops exactly where the digits stop |
| `Numbers.ParseIntStopsAtNonDigit` | components/SaveAnimeModal.tsx:104 | a numeral followed by a non-digit reads as the numeral alone ("7abc" is 7, "10x" is 10); only "0" followed by x/X is excluded, being a hexadecimal prefix |
| `Numbers.MagnitudeOfNumeral` | components/SaveAnimeModal.tsx:63 | a decimal numeral followed by a non-digit has the numeral's value as magnitude, unless the numeral is "0" and the next character is x/X |
| `Numbers.ParseDigitsOfConcat` | components/SaveAnimeModal.tsx:63 | reading digits in any radix stops where the digits stop and gives their value |
| `Numbers.HexPrefix` | components/SaveAnimeModal.tsx:63 | after `0x` or `0X` the rest is read in radix 16 |
| `Numbers.MagnitudeOfHex` | components/SaveAnimeModal.tsx:63 | `0x`/`0X` followed by hexadecimal digits has their radix-16 value, up to the first non-hex character |
| `Numbers.ParseIntOfSigned` | components/SaveAnimeModal.tsx:63 | after leading white space, "-" negates the magnitude and "+" or no sign keeps it |
| `Numbers.ParseIntSignedNumeral` | components/SaveAnimeModal.tsx:63 | white space, an optional sign, a decimal numeral and any non-digit tail read as the signed numeral ("-7abc" is -7, "+5" is 5, "-12xyz" is -12), except "0" followed by x/X |
| `Numbers.ParseIntHexNumeral` | components/SaveAnimeModal.tsx:63 | white space, an optional sign, `0x`/`0X` and hexadecimal digits read as the signed radix-16 value ("-0X10" is -16) |
| `Numbers.HexEpisodeText` | components/SaveAnimeModal.tsx:63 | the episode text "0x1A" reads as 26 |
| `Numbers.ParseIntNaNWithoutLeadingDigit` | components/SaveAnimeModal.tsx:63-64 | when no digit follows the white space and optional sign, the result is NaN even if digits come later ("x7", "a5", "- 5", "+-3") |
| `Numbers.ParseIntHexWithoutDigits` | components/SaveAnimeModal.tsx:63-64 | a `0x`/`0X` prefix with no hexadecimal digit after it reads as NaN ("0x", "0xg") |
| `Numbers.ParseIntExamples` | components/SaveAnimeModal.tsx:63 | "x7" reads as NaN and "10x" as 10 |
| `Numbers.ParseIntNaNWithoutDigits` | components/SaveAnimeModal.tsx:63-64 | text made only of white space, or empty, reads as NaN |
| `Numbers.NoDigitsIsNaN` | components/SaveAnimeModal.tsx:63-64 | any text without a decimal digit ("abc", "-", "+", "x", "") reads as NaN, so the episode check rejects it |
| `Api.Lookup` | utils/api.ts:64-67 | a header lookup finds a property of that name when one exists and none otherwise |
| `Api.Assign` | utils/api.ts:64-67 | spreading one property gives it the new value, keeps an existing property in place, appends a new one, and leaves every other name alone |
| `Api.Spread` | utils/api.ts:64-67 | a spread keeps the base object's properties first, in their order |
| `Api.SpreadLookup` | utils/api.ts:64-67 | after a spread, a name the caller's headers define has the caller's value, and any other name keeps the base value |
| `Api.RequestHeaders` | utils/api.ts:62-68 | `Content-Type` always comes first and is `application/json` unless the caller overrides it; every other header is exactly the caller's |
| `Api.ApiClient.Compose` | utils/api.ts:57-68 | the URL is the base URL followed directly by the endpoint, with no separator; method and body pass through; headers merge as above |
| `Api.ApiClient.RegisterUserCall` | utils/api.ts:80-89 | the request `registerUser` sends; specified by `CallTargets` and `AnonymousCallsSendNoAuthorization` |
| `Api.ApiClient.LoginUserCall` | utils/api.ts:91-96 | the request `loginUser` sends; specified by `CallTargets`, `AnonymousCallsSendNoAuthorization` and `SharedClientAddress` |
| `Api.ApiClient.SaveAnimeToListCall` | utils/api.ts:98-110 | the request `saveAnimeToList` sends; specified by `CallTargets`, `AuthenticatedCallsSendBearer` and `SaveIgnoresUserIdArgument` |
| `Api.ApiClient.GetUserAnimeListCall` | utils/api.ts:112-119 | the request `getUserAnimeList` sends; specified by `CallTargets`, `AuthenticatedCallsSendBearer` and `AnimeListQueryIsVerbatim` |
| `Api.ApiClient.GetUserProfileCall` | utils/api.ts:121-128 | the request `getUserProfile` sends; specified by `CallTargets` and `AuthenticatedCallsSendBearer` |
| `Api.SharedClientAddress` | utils/api.ts:131 | the shared client is built on `http://localhost:4000`, so login posts to `http://localhost:4000/v1/tokens/authentication` |
| `Api.ErrorMessage` | utils/api.ts:70-74 | the thrown message is never empty: the body's `error.message` if non-empty, else `HTTP <status>`, and "An error occurred" when the body does not parse |
| `Api.HttpStatusReadBack` | utils/api.ts:74 | when the body names no message, the status can be read back from the thrown text |
| `Api.Settle` | utils/api.ts:62-77 | a call succeeds exactly on an ok status with a parseable body; a non-ok status throws ErrorMessage; a rejected `fetch` rethrows its own message |
| `Api.AuthenticatedCallsSendBearer` | utils/api.ts:98-128 | `saveAnimeToList`, `getUserAnimeList` and `getUserProfile` send `Authorization: Bearer <token>` after the JSON content type |
| `Api.AnonymousCallsSendNoAuthorization` | utils/api.ts:80-96 | `registerUser` and `loginUser` send only the JSON content type, with no Authorization header |
| `Api.CallTargets` | utils/api.ts:80-128 | endpoints, methods and bodies: POST `{username, email, password}` to `/v1/users`, POST `{email, password}` to `/v1/tokens/authentication`, POST the request object to `/v1/user_anime_list`, and GET the list and `/v1/users/me` without a body |
| `Api.AnimeListQueryIsVerbatim` | utils/api.ts:112-113 | the list URL ends in the user id exactly as given, with no encoding |
| `Api.SaveIgnoresUserIdArgument` | utils/api.ts:98-110 | `saveAnimeToList` sends the same request whatever its `userId` argument is |
| `UserJson.HexDigit` | contexts/AuthContext.tsx:85 | the `\u00XX` escapes use hexadecimal digits that read back as their values |
| `UserJson.EscapeChar` | contexts/AuthContext.tsx:85 | an escaped character is never empty and never starts with a quote, so it cannot end the string literal |
| `UserJson.EncodeUser` | contexts/AuthContext.tsx:85 | the stored user text is never empty, so `if (storedUser)` always sees a written user |
| `UserJson.EscapeBody` | contexts/AuthContext.tsx:85 | the escaped characters of a string, in order; specified by `ParseEscapedBody` |
| `UserJson.Quote` | contexts/AuthContext.tsx:85 | a JSON string literal; specified by `ParseQuoted` |
| `UserJson.DecodeOne` | contexts/AuthContext.tsx:66 | decoding one character of a string literal always consumes some input and never more than there is |
| `UserJson.ParseStringBody` | contexts/AuthContext.tsx:66 | the characters of a string literal up to its closing quote; specified by `ParseEscapedBody` |
| `UserJson.DecodeUser` | contexts/AuthContext.tsx:66 | `JSON.parse` of stored user text; specified by `DecodeEncodeUser` and `EncodeUserInjective` |
| `UserJson.DecodeEscapedChar` | contexts/AuthContext.tsx:66 | each escaped character decodes to itself and consumes exactly its escape |
| `UserJson.ParseEscapedBody` | contexts/AuthContext.tsx:66 | a quoted string reads back exactly and reading stops right after its closing quote |
| `UserJson.ParseQuoted` | contexts/AuthContext.tsx:66 | a string literal followed by any text reads back as the string and that text |
| `UserJson.ParseBoolText` | contexts/AuthContext.tsx:66 | `true` and `false` read back as themselves |
| `UserJson.DecodeEncodeUser` | contexts/AuthContext.tsx:64-85 | `JSON.parse(JSON.stringify(user))` gives back the same user |
| `UserJson.EncodeUserInjective` | contexts/AuthContext.tsx:85 | two different users are never stored as the same text |
| `AuthContext.UsernameFromEmail` | contexts/AuthContext.tsx:79 | `email.split('@')[0]` is the prefix of the email before its first '@', or all of it, and contains no '@' |
| `AuthContext.SynthesizedUser` | contexts/AuthContext.tsx:77-83 | the placeholder user; specified by `SynthesizedUserShape` |
| `AuthContext.Authenticated` | contexts/AuthContext.tsx:138 | `!!token && !!user`; `AuthProvider.IsAuthenticated` is this predicate on the provider's fields, and `RestoreFromMount`, `LoginSuccess`, `LoginSurvivesRestart` and `LogoutSurvivesRestart` say when it holds |
| `AuthContext.Mounted` | contexts/AuthContext.tsx:22-31 | the state at mount; specified by `AuthProvider.constructor` and `RestoreFromMount` |
| `AuthContext.AfterRestore` | contexts/AuthContext.tsx:33-49 | the state after `loadStoredAuth`; specified by `RestoreFromMount` and `RestoreIdempotent` |
| `AuthContext.AfterLogin` | contexts/AuthContext.tsx:51-93 | the state after `login` and what it rethrows; specified by `LoginSuccess`, `LoginFailureChangesNothingElse` and `LoginWithUnreadableStoredUser` |
| `AuthContext.AfterRegister` | contexts/AuthContext.tsx:95-115 | the state after `register`; specified by `RegisterLeavesTokenAlone` |
| `AuthContext.AfterLogout` | contexts/AuthContext.tsx:117-128 | the state after `logout`; specified by `LogoutOutcome` and `LogoutSurvivesRestart` |
| `AuthContext.AfterClearError` | contexts/AuthContext.tsx:130-132 | the state after `clearError`; specified by `ClearErrorOnlyClearsError` |
| `AuthContext.RestoreFromMount` | contexts/AuthContext.tsx:33-49 | restore sets the token only when both keys hold non-empty text, and the user only when the stored user also parses; it writes nothing, sets no error, and ends with `loading` false; `isAuthenticated` then holds exactly when the user was restored |
| `AuthContext.RestoreIdempotent` | contexts/AuthContext.tsx:33-49 | restoring twice from the same store gives the same state as restoring once |
| `AuthContext.LoginFailureChangesNothingElse` | contexts/AuthContext.tsx:51-93 | a failed login call leaves token, user and storage unchanged, records `err.message` or "Login failed", rethrows, and ends with `loading` false |
| `AuthContext.LoginSuccess` | contexts/AuthContext.tsx:51-93 | on success storage and `token` hold the returned token; a stored user with the login email becomes `user` without rewriting its key, otherwise a placeholder user is built and stored; no other key changes; the error is cleared; `loading` ends false; authenticated iff the token is non-empty |
| `AuthContext.SynthesizedUserShape` | contexts/AuthContext.tsx:77-83 | the placeholder user has an empty id, the part of the email before its first '@' as username, the login email, and `activated` true |
| `AuthContext.LoginWithUnreadableStoredUser` | contexts/AuthContext.tsx:57-91 | when the stored user cannot be parsed, login fails with the parse error although the new token is already stored and set; the user is unchanged and `loading` ends false |
| `AuthContext.ClientErrorsReachTheSession` | contexts/AuthContext.tsx:87-114 | for a non-ok response the session's error is the client's message; the "Login failed" and "Registration failed" fallbacks never apply |
| `AuthContext.RegisterLeavesTokenAlone` | contexts/AuthContext.tsx:95-115 | register stores the returned user under the user key and in `user` and never touches the token, so it alone never authenticates; on failure it records `err.message` or "Registration failed" and rethrows |
| `AuthContext.LogoutOutcome` | contexts/AuthContext.tsx:117-128 | a successful logout removes both keys and clears token and user; a failed removal keeps that key's stored value and leaves token and user in memory, and throws nothing; logout adds no key, other keys, error and loading are untouched |
| `AuthContext.ClearErrorOnlyClearsError` | contexts/AuthContext.tsx:130-132 | `clearError` sets the error to null and changes nothing else |
| `AuthContext.LoginSurvivesRestart` | contexts/AuthContext.tsx:33-86 | after a successful login with a non-empty token, a restarted app restores the same token and user and is authenticated |
| `AuthContext.LogoutSurvivesRestart` | contexts/AuthContext.tsx:117-128 | after a successful logout a restarted app is not authenticated |
| `AuthContext.FirstLoginScenario` | contexts/AuthContext.tsx:51-86 | a first login as "user@x.com" with token "abc123" stores exactly that token and a placeholder user named "user", and is authenticated |
| `AuthContext.AuthProvider.constructor` | contexts/AuthContext.tsx:22-26 | the provider mounts with no user, no token, no error and `loading` true |
| `AuthContext.AuthProvider.LoadStoredAuth` | contexts/AuthContext.tsx:33-49 | the field-by-field restore reaches AfterRestore, and `isAuthenticated` agrees with the session predicate |
| `AuthContext.AuthProvider.Login` | contexts/AuthContext.tsx:51-93 | the setter-by-setter login reaches AfterLogin, including what it rethrows |
| `AuthContext.AuthProvider.Register` | contexts/AuthContext.tsx:95-115 | the setter-by-setter register reaches AfterRegister, including what it rethrows |
| `AuthContext.AuthProvider.Logout` | contexts/AuthContext.tsx:117-128 | the removals and setters reach AfterLogout |
| `AuthContext.AuthProvider.ClearError` | contexts/AuthContext.tsx:130-132 | `clearError` reaches AfterClearError |
| `SaveAnimeModal.ValidateAcceptsExactly` | components/SaveAnimeModal.tsx:61-90 | `handleSave` accepts exactly when the episode parses, is not negative, does not exceed a truthy total, and any score is in 1..10; the payload has the form's status and score, the parsed episode, and empty dates as undefined |
| `SaveAnimeModal.InitialForm` | components/SaveAnimeModal.tsx:44-58 | the form's initial fields; specified by `DefaultsWithoutInitialData`, `NoDateBecomesDefault` and `UnchangedEntrySavesAsIs` |
| `SaveAnimeModal.Validate` | components/SaveAnimeModal.tsx:61-90 | the checks of `handleSave` and the entry it builds; specified by `ValidateAcceptsExactly`, `EpisodeChecksComeFirst` and `ScoreElevenNeverSaved` |
| `SaveAnimeModal.RunSave` | components/SaveAnimeModal.tsx:61-97 | one run of `handleSave`; specified by `CloseOnlyAfterSave` |
| `SaveAnimeModal.ScoreAfterInput` | components/SaveAnimeModal.tsx:99-108 | the score after typing; specified by `ScoreInputKeepsRange`, `ScoreInputOfNumber` and `NonNumericInputKeepsScore` |
| `SaveAnimeModal.EpisodeChecksComeFirst` | components/SaveAnimeModal.tsx:63-80 | an unreadable or negative episode is reported whatever the score is; with a total of 0 or undefined there is no upper bound |
| `SaveAnimeModal.ScoreElevenNeverSaved` | components/SaveAnimeModal.tsx:77-80 | a score of 11 never reaches `onSave` |
| `SaveAnimeModal.CloseOnlyAfterSave` | components/SaveAnimeModal.tsx:82-96 | `onSave` gets the validated payload; the form closes exactly when `onSave` resolves; a rejection alerts its message or "Failed to save anime" |
| `SaveAnimeModal.ScoreInputCases` | components/SaveAnimeModal.tsx:99-108 | whatever the score was: empty text clears it, text that parses to 1..10 sets it to that number, and any other text leaves it unchanged |
| `SaveAnimeModal.ScoreInputKeepsRange` | components/SaveAnimeModal.tsx:99-108 | typing in the score field keeps the score undefined or in 1..10 |
| `SaveAnimeModal.ScoreInputOfNumber` | components/SaveAnimeModal.tsx:99-108 | typing a number in 1..10 sets it; typing any other number ("11", "0", "-3") leaves the score unchanged |
| `SaveAnimeModal.NonNumericInputKeepsScore` | components/SaveAnimeModal.tsx:99-108 | non-empty text without a digit ("abc", "-") leaves the score as it was |
| `SaveAnimeModal.DefaultsWithoutInitialData` | components/SaveAnimeModal.tsx:44-58 | with no initial data: status "Watch later", episode "0", no score, start date today when saving and empty when editing, no finish date |
| `SaveAnimeModal.NoDateBecomesDefault` | components/SaveAnimeModal.tsx:49-58 | a missing or "0001-01-01" start date becomes today (save) or empty (edit), such a finish date becomes empty, and any other date is kept |
| `SaveAnimeModal.UnchangedEntrySavesAsIs` | components/SaveAnimeModal.tsx:46-90 | opening the form on a valid entry with an integer episode and saving at once hands back the same episode, score and status, and sends a "no date" finish date as undefined |
| `SaveAnimeModal.SaveAnimeForm.constructor` | components/SaveAnimeModal.tsx:46-59 | the fields start as InitialForm gives them, not saving |
| `SaveAnimeModal.SaveAnimeForm.HandleSave` | components/SaveAnimeModal.tsx:61-97 | the early-return handler produces RunSave's record; `isSaving` is false after a submission whether `onSave` resolved or rejected |
| `SaveAnimeModal.SaveAnimeForm.HandleScoreChange` | components/SaveAnimeModal.tsx:99-108 | the handler sets the score ScoreAfterInput gives, and keeps the score undefined or in 1..10 |
| `RegisterScreen.Utf16Length` | app/auth/register.tsx:23 | `password.length` counts UTF-16 code units, never fewer than the characters |
| `RegisterScreen.Utf16LengthOfBmp` | app/auth/register.tsx:23 | for characters of the Basic Multilingual Plane the length is the character count |
| `RegisterScreen.Utf16LengthOfConcat` | app/auth/register.tsx:23 | the length adds up over concatenation, and one character counts 2 exactly above U+FFFF |
| `RegisterScreen.HandleRegister` | app/auth/register.tsx:17-48 | one run of `handleRegister`; specified by `RegisterCalledOnlyWhenValid`, `PasswordLengthBoundary`, `AstralPasswordPasses`, `RegisterOutcomeRouting` and `ServerRefusalReachesTheAlert` |
| `RegisterScreen.GoToLogin` | app/auth/register.tsx:50-55 | `goToLogin`; specified by `LoginScreen.AuthScreensForwardReturnTarget` |
| `RegisterScreen.RegisterCalledOnlyWhenValid` | app/auth/register.tsx:17-29 | `register(username, email, password)` is called exactly when no field is empty and the password is at least 8 long; an empty field is reported before a short password |
| `RegisterScreen.PasswordLengthBoundary` | app/auth/register.tsx:23-26 | a password of 7 ordinary characters is refused with the length message before any call; 8 proceeds |
| `RegisterScreen.AstralPasswordPasses` | app/auth/register.tsx:23-26 | four emoji already meet the 8-character minimum |
| `RegisterScreen.RegisterOutcomeRouting` | app/auth/register.tsx:28-55 | success alerts with an OK that pushes `/auth/login` forwarding `returning_to` (as `goToLogin` does); failure alerts `err.message` or "An error occurred" and navigates nowhere |
| `RegisterScreen.ServerRefusalReachesTheAlert` | app/auth/register.tsx:45-47 | a registration the server refuses shows the client's message, never the fallback |
| `LoginScreen.AuthScreensForwardReturnTarget` | app/auth/login.tsx:38-43 | `goToRegister` pushes `/auth/register` with `returning_to`, and the register screen's way back keeps it unchanged |
| `LoginScreen.GoToRegister` | app/auth/login.tsx:38-43 | `goToRegister`; specified by `AuthScreensForwardReturnTarget` |
| `LoginScreen.HandleLogin` | app/auth/login.tsx:16-36 | one run of `handleLogin`; specified by `LoginCalledOnlyWithBothFields`, `PostLoginNavigation` and `LoginEndToEnd` |
| `LoginScreen.LoginCalledOnlyWithBothFields` | app/auth/login.tsx:16-36 | `login(email, password)` is called exactly when both fields are non-empty, with no length check; the screen navigates exactly on success and alerts otherwise |
| `LoginScreen.PostLoginNavigation` | app/auth/login.tsx:22-35 | after success it goes back when `returning_to` is truthy and replaces with `/(tabs)` otherwise; failure alerts `err.message` or "Invalid credentials" |
| `LoginScreen.LoginEndToEnd` | app/auth/login.tsx:16-36 | through the session manager and the client: a refused login alerts the client's message; an accepted first login with a non-empty token authenticates and navigates |
| `ActivateScreen.EffectOutcome` | app/activate.tsx:16-35 | activation is attempted exactly when the token is truthy; a missing token gives "Invalid activation link.", success "Account Activated Successfully!", failure `err.message` or "Failed to activate account."; the state is terminal and its only action replaces with `/auth/login` |
| `ActivateScreen.RunEffect` | app/activate.tsx:16-35 | the activation effect; specified by `EffectOutcome` and `ActivationView.Effect` |
| `ActivateScreen.ButtonAction` | app/activate.tsx:51-73 | the button's action in each state; specified by `EffectOutcome` |
| `ActivateScreen.ActivationView.constructor` | app/activate.tsx:13-14 | the screen starts loading with "Activating your account..." and offers no action |
| `ActivateScreen.ActivationView.Effect` | app/activate.tsx:16-35 | the effect sets status and message as RunEffect gives them |

## Left out

- Rendering, styling and the UI kit. Alerts and router calls are recorded values. The Alert's OK button is recorded as the navigation it would perform.
- `fetch`, AsyncStorage, the clock and the logger are not modelled; each becomes an input or a map. `console.error` calls are dropped.
- The interleaving of concurrent handlers, and React's batched or deferred state updates, are not modelled. Each handler runs alone from start to finish.
- Storage failures in `login` and `register` are not modelled: their `setItem` and `getItem` calls always succeed. Failures in restore (any read rejects) and in `logout` (each removal succeeds or fails) are modelled.
- UserJson.DecodeUser reads only the canonical field layout that `JSON.stringify` writes for a `User` (the fields in declaration order, no white space), with any JSON string escape inside the strings, including escapes the encoder never writes, such as `\/` and `\u0041`. A `\u` escape of a surrogate code unit is a parse failure, because the model's characters are Unicode scalar values. Every other layout counts as a parse failure with one fixed message, which stands for the engine's. That includes other spellings of the same object, and valid JSON that is not a user object (`null`, `{}`). The source treats those differently from the model. A stored `null` makes `login` throw a TypeError, and restore then sets the user to null. An object without the login email (such as `{}`) makes `login` build, store and set a placeholder user and succeed; the model fails that login with the parse message instead. Restore sets any parsed object as the user.
- The user object a server returns is taken to have exactly the `User` fields. Extra fields and a different key order are not modelled.
- The success path of `request` is not modelled beyond the parse. The body of an ok response is trusted to have the expected shape; a missing `authentication_token` would throw a TypeError in the source. A non-ok body that parses to `null`, or whose `error.message` is not a string, is not modelled either.
- Request bodies are kept as structured values. `JSON.stringify` of them is taken to be lossless.
- Header names are compared case-sensitively, as object keys are. The case-insensitive merging of `fetch`'s Headers is not modelled.
- Numbers.IntToString: does not model the exponent notation JavaScript uses from 10^21 on.
- Numbers.ParseInt: does not model the rounding `parseInt` applies beyond 2^53. Negative zero is the integer 0. Every comparison the source makes treats them alike.
- Scores, `current_episode` and episode totals are integers (`InitialData.current_episode: Option<int>`). A fractional value arriving in `initialData` is not modelled. For a fractional `current_episode` such as 3.5, the source renders "3.5" at components/SaveAnimeModal.tsx:47 and `parseInt` reads it back as 3, so saving an unchanged entry would change its episode.
- SaveAnimeModal.UnchangedEntrySavesAsIs: holds only for integer episodes, because the model has no fractional numbers.
- `returning_to` given as an array of strings is not modelled: only a missing value or one string.
- `apiClient.activateUser` is called by the activation screen but not defined in utils/api.ts. It is an opaque call that resolves or rejects.
- `useAuth`'s check for a missing provider is not modelled. It is a framework guard.
- Not part of this model:
  - `app/index.tsx` (a network fetch and a random shuffle);
  - the tab screens;
  - `components/ConfirmDialog.tsx` and `components/myComponents/Anime.tsx`;
  - the layout files.
