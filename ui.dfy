/** What a screen handler does that the user sees: the alert it shows and
    where the router goes. Both are recorded as values instead of being
    rendered. */
module Ui {

  import opened Common

  /** A `router` call. `returningTo` is the `returning_to` search parameter,
      forwarded as it was received. */
  datatype Navigation =
    | Push(pathname: string, returningTo: Option<string>)
    | Replace(pathname: string)
    | Back

  /** `Alert.alert(title, message, buttons)`; `onOk` is where its OK button
      navigates, if anywhere. */
  datatype Alert = Alert(title: string, message: string, onOk: Option<Navigation>)

  const LOGIN_PATH := "/auth/login"
  const REGISTER_PATH := "/auth/register"
  const TABS_PATH := "/(tabs)"
  const FILL_ALL_FIELDS := "Please fill in all fields"
}
