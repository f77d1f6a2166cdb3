/** The account activation screen (app/activate.tsx): its mount effect
    moves the screen from "loading" to "success" or "error". The activation
    request itself (`apiClient.activateUser`, which utils/api.ts does not
    define) is an opaque call: how it settles is an input. */
module ActivateScreen {

  import opened Common
  import opened Ui

  datatype Status = Loading | Success | Error

  const ACTIVATING := "Activating your account..."
  const INVALID_LINK := "Invalid activation link."
  const ACTIVATED := "Account Activated Successfully!"
  const ACTIVATION_FAILED := "Failed to activate account."

  /** What the effect leaves on screen, and whether it called
      `activateUser`. */
  datatype EffectRun = EffectRun(status: Status, message: string, attempted: bool)

  /** The effect for the `token` search parameter: a missing or empty token
      is an invalid link and nothing is requested; otherwise the activation
      is awaited and its outcome shown. */
  function RunEffect(token: Option<string>, activation: Outcome<()>): EffectRun
  {
    if !Truthy(token) then EffectRun(Error, INVALID_LINK, false)
    else match activation
      case Ok(_) => EffectRun(Success, ACTIVATED, true)
      case Err(message) => EffectRun(Error, OrElse(message, ACTIVATION_FAILED), true)
  }

  /** The button each state renders: none while loading, and in both
      terminal states one that replaces the screen with the login screen. */
  function ButtonAction(status: Status): Option<Navigation>
  {
    if status == Loading then None else Some(Replace(LOGIN_PATH))
  }

  /** Activation is attempted exactly when the token is truthy; the effect
      always leaves a terminal state with a non-empty message, whose only
      action leads to the login screen. */
  lemma EffectOutcome(token: Option<string>, activation: Outcome<()>)
    ensures var r := RunEffect(token, activation);
      && (r.attempted <==> Truthy(token))
      && r.status != Loading && r.message != ""
      && (!Truthy(token) ==> r.status == Error && r.message == INVALID_LINK)
      && (Truthy(token) && activation.Ok? ==> r.status == Success && r.message == ACTIVATED)
      && (Truthy(token) && activation.Err? ==>
            r.status == Error && r.message == (if activation.message != "" then activation.message else ACTIVATION_FAILED))
      && ButtonAction(r.status) == Some(Replace(LOGIN_PATH))
  {
  }

  class ActivationView {
    var status: Status
    var message: string

    constructor ()
      ensures status == Loading && message == ACTIVATING && ButtonAction(status).None?
    {
      status, message := Loading, ACTIVATING;
    }

    /** The `useEffect` body, run for the current `token`. */
    method Effect(token: Option<string>, activation: Outcome<()>) returns (attempted: bool)
      modifies this
      ensures EffectRun(status, message, attempted) == RunEffect(token, activation)
    {
      if !Truthy(token) {
        status := Error;
        message := INVALID_LINK;
        return false;
      }
      attempted := true;
      if activation.Ok? {
        status := Success;
        message := ACTIVATED;
      } else {
        status := Error;
        message := OrElse(activation.message, ACTIVATION_FAILED);
      }
    }
  }
}
