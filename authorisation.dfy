/** The two request guards of api/endpoints/authorisation.py. Each one reads a claimed id
    and the `Access-Token` header, looks the id up in the store and either lets the
    request through or ends it with an error, in a fixed order of checks. Both only
    read the store: they are functions of the tables they are given. */
module Authorisation {
  import opened Wrappers
  import opened Models

  datatype Decision = Accept | Reject(failure: Failure)

  const DeviceIdRequired: Failure := HttpError(BadRequest, "Device ID is required")
  const UserIdRequired: Failure := HttpError(BadRequest, "User ID is required")
  const TokenRequired: Failure := HttpError(Unauthorized, "Access token is required")
  const UnknownDevice: Failure := HttpError(Unauthorized, "Device ID does not exist")
  const UnknownUser: Failure := HttpError(Unauthorized, "User ID does not exist")
  const WrongToken: Failure := HttpError(Unauthorized, "Invalid access token")
  const BodyUnreadable: Failure := Unhandled("request body is not a JSON object")

  /** Python truthiness of an optional id: `None` and `0` are both "missing". */
  predicate IdGiven(id: Option<int>) {
    id.Some? && id.value != 0
  }

  /** Python truthiness of the optional header: `None` and `""` are both "missing". */
  predicate TokenGiven(token: Option<string>) {
    token.Some? && token.value != ""
  }

  /** The device-side credential, stated without reference to the order of the checks:
      the body names a nonzero device id, a nonempty token is presented, and it is the
      token on record for that device. */
  ghost predicate DeviceCredentialValid(body: Body, accessToken: Option<string>, devices: map<int, Device>) {
    exists id ::
      && body.JsonObject? && body.Get("device_id") == Some(id) && id != 0
      && id in devices && accessToken == Some(devices[id].accessToken) && devices[id].accessToken != ""
  }

  /** `authorise_device` (api/endpoints/authorisation.py:11-40). */
  function AuthoriseDevice(body: Body, accessToken: Option<string>, devices: map<int, Device>): (d: Decision)
    ensures d == Accept <==> DeviceCredentialValid(body, accessToken, devices)
    // the id is checked first: a missing id is a 400 whatever the token
    ensures body.JsonObject? && !IdGiven(body.Get("device_id")) ==> d == Reject(DeviceIdRequired)
    // then the token, before any lookup; then existence; then the token on record
    ensures forall id :: body.JsonObject? && body.Get("device_id") == Some(id) && id != 0 ==>
              (!TokenGiven(accessToken) ==> d == Reject(TokenRequired)) &&
              (TokenGiven(accessToken) && id !in devices ==> d == Reject(UnknownDevice)) &&
              (TokenGiven(accessToken) && id in devices && devices[id].accessToken != accessToken.value ==> d == Reject(WrongToken))
    // a readable body is only ever refused with 400 or 401
    ensures body.JsonObject? && d.Reject? ==> d.failure.HttpError? && d.failure.status in {BadRequest, Unauthorized}
    ensures body.Malformed? ==> d == Reject(BodyUnreadable) && StatusOf(d.failure) == InternalServerError
  {
    if body.Malformed? then Reject(BodyUnreadable)
    else
      var deviceId := body.Get("device_id");
      if !IdGiven(deviceId) then Reject(DeviceIdRequired)
      else if !TokenGiven(accessToken) then Reject(TokenRequired)
      else match GetDevice(devices, deviceId.value)
        case None => Reject(UnknownDevice)
        case Some(device) =>
          if device.accessToken != accessToken.value then Reject(WrongToken) else Accept
  }

  /** The id `authorise_user` checks: the query parameter when one was given, otherwise the
      body's `user_id` (None when the body is unreadable, which never gets that far). */
  ghost predicate ClaimsUser(queryUserId: Option<int>, body: Body, id: int) {
    queryUserId == Some(id) || (queryUserId.None? && body.JsonObject? && body.Get("user_id") == Some(id))
  }

  /** The user-side credential, stated without reference to the order of the checks. */
  ghost predicate UserCredentialValid(queryUserId: Option<int>, body: Body, accessToken: Option<string>, users: map<int, User>) {
    exists id ::
      && ClaimsUser(queryUserId, body, id) && id != 0
      && id in users && accessToken == Some(users[id].accessToken) && users[id].accessToken != ""
  }

  /** `authorise_user` (api/endpoints/authorisation.py:43-76). */
  function AuthoriseUser(queryUserId: Option<int>, body: Body, accessToken: Option<string>, users: map<int, User>): (d: Decision)
    ensures d == Accept <==> UserCredentialValid(queryUserId, body, accessToken, users)
    // a query id is used as it is, even 0, and the body is then never read
    ensures queryUserId == Some(0) ==> d == Reject(UserIdRequired)
    ensures queryUserId.None? && body.Malformed? ==> d == Reject(BodyUnreadable) && StatusOf(d.failure) == InternalServerError
    ensures queryUserId.None? && body.JsonObject? && !IdGiven(body.Get("user_id")) ==> d == Reject(UserIdRequired)
    ensures forall id :: ClaimsUser(queryUserId, body, id) && id != 0 ==>
              (!TokenGiven(accessToken) ==> d == Reject(TokenRequired)) &&
              (TokenGiven(accessToken) && id !in users ==> d == Reject(UnknownUser)) &&
              (TokenGiven(accessToken) && id in users && users[id].accessToken != accessToken.value ==> d == Reject(WrongToken))
    ensures (queryUserId.Some? || body.JsonObject?) && d.Reject? ==>
              d.failure.HttpError? && d.failure.status in {BadRequest, Unauthorized}
  {
    if queryUserId.None? && body.Malformed? then Reject(BodyUnreadable)
    else
    var claimed := if queryUserId.Some? then queryUserId else body.Get("user_id");
    if !IdGiven(claimed) then Reject(UserIdRequired)
    else if !TokenGiven(accessToken) then Reject(TokenRequired)
    else match GetUser(users, claimed.value)
      case None => Reject(UnknownUser)
      case Some(user) =>
        if user.accessToken != accessToken.value then Reject(WrongToken) else Accept
  }

  /** The missing-token 401 is decided before the store is consulted: whatever the
      devices table holds, the outcome is the same. */
  lemma DeviceTokenCheckPrecedesLookup(body: Body, accessToken: Option<string>, devices1: map<int, Device>, devices2: map<int, Device>)
    requires !TokenGiven(accessToken)
    ensures AuthoriseDevice(body, accessToken, devices1) == AuthoriseDevice(body, accessToken, devices2)
  {
  }

  /** Likewise for users. */
  lemma UserTokenCheckPrecedesLookup(queryUserId: Option<int>, body: Body, accessToken: Option<string>, users1: map<int, User>, users2: map<int, User>)
    requires !TokenGiven(accessToken)
    ensures AuthoriseUser(queryUserId, body, accessToken, users1) == AuthoriseUser(queryUserId, body, accessToken, users2)
  {
  }

  /** When the query names a user the body is never read: any two bodies give the same
      decision, an unreadable one included. */
  lemma QueryUserIdShadowsBody(queryUserId: Option<int>, body1: Body, body2: Body, accessToken: Option<string>, users: map<int, User>)
    requires queryUserId.Some?
    ensures AuthoriseUser(queryUserId, body1, accessToken, users) == AuthoriseUser(queryUserId, body2, accessToken, users)
  {
  }
}
