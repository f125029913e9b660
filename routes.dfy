/** The wiring of api/main.py: the device router sits behind the device guard, the
    app-user router behind the user guard, and the routers for signup, login and device
    registration are not mounted at all, so a request for them finds no route. */
module Routes {
  import opened Wrappers
  import opened Models
  import opened Authorisation

  datatype Endpoint =
    | SendGpsData | RegisterDeviceToUser        // device_data_endpoints.router
    | GetUser | GetDevices | GetGpsData         // app_user_endpoints.router
    | Signup | Login                            // app_user_endpoints.auth_router
    | RegisterDevice                            // device_data_endpoints.device_registration_router

  datatype Guard = DeviceGuard | UserGuard

  /** What a guard reads from a request: the `user_id` query parameter (only the user
      guard looks at it), the JSON body and the `Access-Token` header. */
  datatype Request = Request(queryUserId: Option<int>, body: Body, accessToken: Option<string>)

  const RouteNotFound: Failure := HttpError(NotFound, "Not Found")

  /** The guard in front of an endpoint; None when its router is not mounted. */
  function GuardOf(endpoint: Endpoint): Option<Guard> {
    match endpoint
    case SendGpsData | RegisterDeviceToUser => Some(DeviceGuard)
    case GetUser | GetDevices | GetGpsData => Some(UserGuard)
    case Signup | Login | RegisterDevice => None
  }

  /** Whether a request passes the guard of its endpoint's router (api/main.py:27-38).
      The handler's own parameters are validated only after this, so a request that
      passes can still be refused before the handler runs. */
  function Admit(endpoint: Endpoint, request: Request, devices: map<int, Device>, users: map<int, User>): (d: Decision)
    // a request passes exactly when it carries the credential its router's guard demands
    ensures d == Accept <==>
              || (GuardOf(endpoint) == Some(DeviceGuard) && DeviceCredentialValid(request.body, request.accessToken, devices))
              || (GuardOf(endpoint) == Some(UserGuard) &&
                  UserCredentialValid(request.queryUserId, request.body, request.accessToken, users))
    ensures GuardOf(endpoint).None? ==> d == Reject(RouteNotFound)
  {
    match GuardOf(endpoint)
    case None => Reject(RouteNotFound)
    case Some(DeviceGuard) => AuthoriseDevice(request.body, request.accessToken, devices)
    case Some(UserGuard) => AuthoriseUser(request.queryUserId, request.body, request.accessToken, users)
  }

  /** A telemetry upload is admitted only when its body names a registered device, by a
      nonzero id, and the header carries that device's own token. */
  lemma AdmittedUploadCarriesDeviceToken(request: Request, devices: map<int, Device>, users: map<int, User>)
    requires Admit(SendGpsData, request, devices, users) == Accept
    ensures request.body.JsonObject? && request.body.Get("device_id").Some?
    ensures var id := request.body.Get("device_id").value;
            id != 0 && id in devices && request.accessToken == Some(devices[id].accessToken)
  {
  }
}
