/** The default route middleware of middleware/setup.ts: while the backend has no administrator,
    signed-out visitors are sent to the setup page. */
module SetupMiddleware {
  import opened Js
  import opened AuthStore
  import ApiClient

  const SETUP_PATH := "/setup"

  /** Whether the guard asked the backend, and where it sent the browser. */
  datatype SetupRun = SetupRun(checked: bool, navigation: Navigation)

  /** One run of the guard. `check` is how `api.setup.check()` completed; a successful result
      has `data.needs_setup` read strictly, so a success without data throws into the catch. */
  function Guard(path: string, authenticated: bool, check: Outcome<ApiClient.ApiResponse>): (run: SetupRun)
    ensures run.checked <==> path != SETUP_PATH && !authenticated
    ensures run.navigation.Redirect? ==> run.navigation.to == SETUP_PATH
    ensures run.navigation.Redirect? <==>
      && run.checked
      && (|| check.Threw?
          || (check.value.success
              && (IsNullish(check.value.data) || Truthy(OptionalProp(check.value.data, "needs_setup")))))
  {
    if path == SETUP_PATH || authenticated then SetupRun(false, Continue)
    else
      match check
      case Threw(_) => SetupRun(true, Redirect(SETUP_PATH))
      case Returned(response) =>
        if !response.success then SetupRun(true, Continue)
        else
          match Prop(response.data, "needs_setup")
          case Threw(_) => SetupRun(true, Redirect(SETUP_PATH))
          case Returned(needsSetup) =>
            SetupRun(true, if Truthy(needsSetup) then Redirect(SETUP_PATH) else Continue)
  }

  /** A backend that cannot be reached is not treated as one that needs setup: the client
      reports the network failure as a value, so the guard lets the visitor through. */
  lemma UnreachableBackendContinues(path: string, message: string, json: Json)
    requires path != SETUP_PATH
    ensures Guard(path, false, Returned(ApiClient.Normalize(ApiClient.Rejected(message), json)))
      == SetupRun(true, Continue)
  {
  }

  /** An error status from the backend also lets the visitor through, whatever its body says. */
  lemma ErrorStatusContinues(path: string, status: int, statusText: string, contentType: Option<string>,
                             text: Option<string>, json: Json)
    requires path != SETUP_PATH && !ApiClient.IsOk(status)
    ensures Guard(path, false, Returned(ApiClient.Normalize(ApiClient.Response(status, statusText, contentType, text), json)))
      == SetupRun(true, Continue)
  {
  }

  /** A 204 No Content answer to the check carries null data, so reading `needs_setup` throws and
      the visitor is sent to setup. */
  lemma NoContentSendsToSetup(path: string, statusText: string, json: Json)
    requires path != SETUP_PATH
    ensures Guard(path, false, Returned(ApiClient.Normalize(ApiClient.Response(204, statusText, None, None), json)))
      == SetupRun(true, Redirect(SETUP_PATH))
  {
  }
}
