/** The app-user handlers of api/endpoints/app_user_endpoints.py: account creation and
    login (which hand out the user's access token), and the three read-only queries
    behind the user guard. */
module AppUserEndpoints {
  import opened Wrappers
  import opened Models
  import opened Database

  datatype SignupRequest = SignupRequest(emailAddress: string, phoneNumber: string, name: string, password: string)

  datatype LoginRequest = LoginRequest(emailAddress: string, password: string)

  /** What signup and login answer: the account's public fields and its access token. */
  datatype AuthResponse = AuthResponse(userId: int, emailAddress: string, phoneNumber: string, name: string, accessToken: string)

  /** What `/user` answers: no salt, no digest, no token. */
  datatype AppUserResponse = AppUserResponse(userId: int, emailAddress: string, phoneNumber: string, name: string)

  /** What `/devices` answers per device: no token, no creation time. */
  datatype AppDeviceResponse = AppDeviceResponse(
    deviceId: int, smsNumber: string,
    control1: Option<bool>, control2: Option<bool>, control3: Option<bool>, control4: Option<bool>)

  datatype AppGPSDataResponse = AppGPSDataResponse(gpsData: seq<GPSData>)

  const EmailExists: Failure := HttpError(Conflict, "User with this email address already exists")
  const InvalidCredentials: Failure := HttpError(Unauthorized, "Invalid email address or password")
  const UserNotFound: Failure := HttpError(NotFound, "User not found")
  const EmptyTimeWindow: Failure := Unhandled("end_time must be greater than start_time")

  function AuthResponseOf(user: User): AuthResponse {
    AuthResponse(user.userId, user.emailAddress, user.phoneNumber, user.name, user.accessToken)
  }

  /** `signup` (api/endpoints/app_user_endpoints.py:38-74). The password hasher, the salt
      and token it draws, the clock and a possible storage error are parameters. */
  method Signup(
    db: Store, request: SignupRequest,
    hasher: (string, string) -> string, salt: string, token: string, now: Timestamp, fault: Option<string>)
    returns (r: Result<AuthResponse, Failure>)
    requires db.Valid()
    modifies db
    ensures db.Valid()
    ensures db.devices == old(db.devices) && db.userDevices == old(db.userDevices) && db.gpsData == old(db.gpsData)
    // a taken email is a conflict and nothing is created
    ensures EmailTaken(old(db.users), request.emailAddress) ==> r == Failure(EmailExists) && db.users == old(db.users)
    // a storage error is a 500 carrying its message, and nothing is created
    ensures !EmailTaken(old(db.users), request.emailAddress) && fault.Some? ==>
              r == Failure(HttpError(InternalServerError, "Failed to create user: " + fault.value)) && db.users == old(db.users)
    // otherwise exactly one user is added, under a fresh id, and handed back with its token
    ensures !EmailTaken(old(db.users), request.emailAddress) && fault.None? ==>
              && r.Success?
              && r.value.userId !in old(db.users)
              && db.users == old(db.users)[r.value.userId := User(
                   r.value.userId, request.emailAddress, request.phoneNumber, request.name,
                   salt, hasher(request.password, salt), token, now)]
              && r.value == AuthResponse(r.value.userId, request.emailAddress, request.phoneNumber, request.name, token)
    ensures EmailsUnique(old(db.users)) ==> EmailsUnique(db.users)
    // the new account can log in at once with the password it signed up with
    ensures EmailsUnique(old(db.users)) && r.Success? ==>
              Login(db.users, LoginRequest(request.emailAddress, request.password), hasher) == Success(r.value)
  {
    if EmailTaken(db.users, request.emailAddress) {
      return Failure(EmailExists);
    }
    var created := db.CreateUser(
      request.emailAddress, request.phoneNumber, request.name, request.password, hasher, salt, token, now, fault);
    if created.Failure? {
      return Failure(HttpError(InternalServerError, "Failed to create user: " + created.error));
    }
    r := Success(AuthResponseOf(created.value));
    if EmailsUnique(old(db.users)) {
      SignupKeepsEmailsUnique(old(db.users), created.value);
      UserByEmailFindsOwner(db.users, created.value.userId);
    }
  }

  /** `verify_user_password`: the user holding the email, if the hasher maps the given
      password and that user's salt to the stored digest. */
  ghost function VerifyUserPassword(users: map<int, User>, emailAddress: string, password: string, hasher: (string, string) -> string): (r: Option<User>)
    ensures r.Some? ==> r.value in users.Values && r.value.emailAddress == emailAddress
    ensures r.Some? ==> hasher(password, r.value.salt) == r.value.hashedPassword
  {
    match UserByEmail(users, emailAddress)
    case None => None
    case Some(user) => if hasher(password, user.salt) == user.hashedPassword then Some(user) else None
  }

  /** `login` (api/endpoints/app_user_endpoints.py:77-103). */
  ghost function Login(users: map<int, User>, request: LoginRequest, hasher: (string, string) -> string): (r: Result<AuthResponse, Failure>)
    // every failure is the same 401, whatever its cause
    ensures r.Failure? ==> r.error == InvalidCredentials
    ensures r.Failure? <==> VerifyUserPassword(users, request.emailAddress, request.password, hasher).None?
    // a success hands back a stored account's own token, unchanged
    ensures r.Success? ==> exists id :: id in users && users[id].emailAddress == request.emailAddress
                                         && r.value == AuthResponseOf(users[id])
  {
    match VerifyUserPassword(users, request.emailAddress, request.password, hasher)
    case None => Failure(InvalidCredentials)
    case Some(user) => Success(AuthResponseOf(user))
  }

  /** Signing up under a free email keeps emails unique. */
  lemma SignupKeepsEmailsUnique(users: map<int, User>, user: User)
    requires EmailsUnique(users)
    requires !EmailTaken(users, user.emailAddress) && user.userId !in users
    ensures EmailsUnique(users[user.userId := user])
  {
  }

  /** An unknown email and a wrong password are indistinguishable to the caller. */
  lemma LoginFailuresIndistinguishable(
    users: map<int, User>, hasher: (string, string) -> string, unknownEmail: string, id: int, wrongPassword: string, password: string)
    requires EmailsUnique(users)
    requires !EmailTaken(users, unknownEmail)
    requires id in users && hasher(wrongPassword, users[id].salt) != users[id].hashedPassword
    ensures Login(users, LoginRequest(unknownEmail, password), hasher)
            == Login(users, LoginRequest(users[id].emailAddress, wrongPassword), hasher)
            == Failure(InvalidCredentials)
  {
  }

  /** With unique emails, the right password logs into the account holding the email
      and returns the token on record. */
  lemma LoginReturnsStoredToken(users: map<int, User>, hasher: (string, string) -> string, id: int, password: string)
    requires EmailsUnique(users)
    requires id in users && hasher(password, users[id].salt) == users[id].hashedPassword
    ensures Login(users, LoginRequest(users[id].emailAddress, password), hasher) == Success(AuthResponseOf(users[id]))
  {
  }

  /** `get_user_info` (api/endpoints/app_user_endpoints.py:111-129). */
  function GetUserInfo(users: map<int, User>, userId: int): (r: Result<AppUserResponse, Failure>)
    ensures r.Failure? <==> userId !in users
    ensures r.Failure? ==> r.error == UserNotFound
    ensures r.Success? ==>
              var user := users[userId];
              r.value == AppUserResponse(user.userId, user.emailAddress, user.phoneNumber, user.name)
  {
    match GetUser(users, userId)
    case None => Failure(UserNotFound)
    case Some(user) => Success(AppUserResponse(user.userId, user.emailAddress, user.phoneNumber, user.name))
  }

  /** The answer of `/user` does not depend on the salt, the digest or the token: two
      stores that agree on every user's public fields answer alike. */
  lemma UserInfoHidesSecrets(users1: map<int, User>, users2: map<int, User>, userId: int)
    requires users1.Keys == users2.Keys
    requires forall id :: id in users1 ==>
               && users1[id].userId == users2[id].userId
               && users1[id].emailAddress == users2[id].emailAddress
               && users1[id].phoneNumber == users2[id].phoneNumber
               && users1[id].name == users2[id].name
    ensures GetUserInfo(users1, userId) == GetUserInfo(users2, userId)
  {
  }

  /** Positions in the links table of this user's links to stored devices. */
  ghost function UserLinkPositions(devices: map<int, Device>, links: seq<UserDevice>, userId: int): set<int> {
    set i | 0 <= i < |links| && links[i].userId == userId && links[i].deviceId in devices
  }

  /** Positions in the links table of the links from this user to one device. */
  ghost function LinkPositionsTo(links: seq<UserDevice>, userId: int, deviceId: int): set<int> {
    set i | 0 <= i < |links| && links[i] == UserDevice(userId, deviceId)
  }

  /** `get_devices_by_user_id`: the devices the user is linked to, one per link, in link
      order; a link to a device missing from the table yields nothing. */
  function DevicesOfUser(devices: map<int, Device>, links: seq<UserDevice>, userId: int): (r: seq<Device>)
    // exactly one entry per link of this user to a stored device
    ensures |r| == |UserLinkPositions(devices, links, userId)|
    ensures forall d :: d in r ==> exists k :: k in devices && devices[k] == d && UserDevice(userId, k) in links
    // each stored device appears as often as the user is linked to it
    ensures DevicesKeyed(devices) ==>
              forall k :: k in devices ==> multiset(r)[devices[k]] == |LinkPositionsTo(links, userId, k)|
  {
    if links == [] then []
    else
      var last := links[|links| - 1];
      var earlier := DevicesOfUser(devices, links[..|links| - 1], userId);
      UserLinkPositionsStep(devices, links, userId);
      LinkPositionsToStep(links, userId);
      if last.userId == userId && last.deviceId in devices then earlier + [devices[last.deviceId]] else earlier
  }

  /** For each device, the positions of the user's links to it in a nonempty table are
      those in the table without its last link, plus the last position when it links them. */
  lemma LinkPositionsToStep(links: seq<UserDevice>, userId: int)
    requires links != []
    ensures var n := |links| - 1;
            forall k :: |LinkPositionsTo(links, userId, k)| ==
                        |LinkPositionsTo(links[..n], userId, k)| + (if links[n] == UserDevice(userId, k) then 1 else 0)
  {
    var n := |links| - 1;
    forall k
      ensures |LinkPositionsTo(links, userId, k)| ==
              |LinkPositionsTo(links[..n], userId, k)| + (if links[n] == UserDevice(userId, k) then 1 else 0)
    {
      var earlier := LinkPositionsTo(links[..n], userId, k);
      var lastOne: set<int> := if links[n] == UserDevice(userId, k) then {n} else {};
      assert LinkPositionsTo(links, userId, k) == earlier + lastOne;
      assert n !in earlier;
    }
  }

  /** The positions in a nonempty table are those in the table without its last link,
      plus the last position when that link matches. */
  lemma UserLinkPositionsStep(devices: map<int, Device>, links: seq<UserDevice>, userId: int)
    requires links != []
    ensures var n := |links| - 1;
            |UserLinkPositions(devices, links, userId)| ==
            |UserLinkPositions(devices, links[..n], userId)| +
            (if links[n].userId == userId && links[n].deviceId in devices then 1 else 0)
  {
    var n := |links| - 1;
    var earlier := UserLinkPositions(devices, links[..n], userId);
    var lastOne: set<int> := if links[n].userId == userId && links[n].deviceId in devices then {n} else {};
    assert UserLinkPositions(devices, links, userId) == earlier + lastOne;
    assert n !in earlier;
  }

  /** Every stored device the user is linked to is listed. */
  lemma {:induction false} LinkedDeviceListed(devices: map<int, Device>, links: seq<UserDevice>, userId: int, deviceId: int)
    requires UserDevice(userId, deviceId) in links && deviceId in devices
    ensures devices[deviceId] in DevicesOfUser(devices, links, userId)
  {
    var n := |links| - 1;
    if links[n] != UserDevice(userId, deviceId) {
      var i :| 0 <= i < |links| && links[i] == UserDevice(userId, deviceId);
      assert links[..n][i] == links[i];
      LinkedDeviceListed(devices, links[..n], userId, deviceId);
    }
  }

  function DeviceResponseOf(device: Device): AppDeviceResponse {
    AppDeviceResponse(device.deviceId, device.smsNumber, device.control1, device.control2, device.control3, device.control4)
  }

  /** The list comprehension of `get_user_devices`: one response per device, in order,
      each carrying that device's id, number and flags. */
  function ProjectDevices(devices: seq<Device>): (r: seq<AppDeviceResponse>)
    ensures |r| == |devices|
    ensures forall i :: 0 <= i < |r| ==>
              && r[i].deviceId == devices[i].deviceId && r[i].smsNumber == devices[i].smsNumber
              && r[i].control1 == devices[i].control1 && r[i].control2 == devices[i].control2
              && r[i].control3 == devices[i].control3 && r[i].control4 == devices[i].control4
  {
    seq(|devices|, i requires 0 <= i < |devices| => DeviceResponseOf(devices[i]))
  }

  /** The entry describes a stored device that is linked to the user. */
  ghost predicate DescribesLinkedDevice(devices: map<int, Device>, links: seq<UserDevice>, userId: int, entry: AppDeviceResponse) {
    exists k :: k in devices && UserDevice(userId, k) in links && entry == DeviceResponseOf(devices[k])
  }

  /** `get_user_devices` (api/endpoints/app_user_endpoints.py:140-158). */
  function GetUserDevices(devices: map<int, Device>, links: seq<UserDevice>, userId: int): (r: seq<AppDeviceResponse>)
    ensures forall i :: 0 <= i < |r| ==> DescribesLinkedDevice(devices, links, userId, r[i])
  {
    var linked := DevicesOfUser(devices, links, userId);
    var r := ProjectDevices(linked);
    assert forall i :: 0 <= i < |r| ==> DescribesLinkedDevice(devices, links, userId, r[i]) by {
      forall i | 0 <= i < |r| ensures DescribesLinkedDevice(devices, links, userId, r[i]) {
        assert linked[i] in linked;
        var k :| k in devices && devices[k] == linked[i] && UserDevice(userId, k) in links;
        assert r[i] == DeviceResponseOf(devices[k]);
      }
    }
    r
  }

  /** ... and every stored device linked to this user has its entry. */
  lemma LinkedDeviceReported(devices: map<int, Device>, links: seq<UserDevice>, userId: int, deviceId: int)
    requires UserDevice(userId, deviceId) in links && deviceId in devices
    ensures DeviceResponseOf(devices[deviceId]) in GetUserDevices(devices, links, userId)
  {
    LinkedDeviceListed(devices, links, userId, deviceId);
    var linked := DevicesOfUser(devices, links, userId);
    var i :| 0 <= i < |linked| && linked[i] == devices[deviceId];
    assert GetUserDevices(devices, links, userId)[i] == DeviceResponseOf(devices[deviceId]);
  }

  /** The answer of `/devices` does not depend on the devices' tokens or creation times. */
  lemma {:induction false} UserDevicesHideTokens(devices1: map<int, Device>, devices2: map<int, Device>, links: seq<UserDevice>, userId: int)
    requires devices1.Keys == devices2.Keys
    requires forall k :: k in devices1 ==> DeviceResponseOf(devices1[k]) == DeviceResponseOf(devices2[k])
    ensures GetUserDevices(devices1, links, userId) == GetUserDevices(devices2, links, userId)
  {
    if links != [] {
      var n := |links| - 1;
      UserDevicesHideTokens(devices1, devices2, links[..n], userId);
      var ds1, ds2 := DevicesOfUser(devices1, links, userId), DevicesOfUser(devices2, links, userId);
      var earlier1, earlier2 := DevicesOfUser(devices1, links[..n], userId), DevicesOfUser(devices2, links[..n], userId);
      assert ProjectDevices(earlier1) == ProjectDevices(earlier2);
      if links[n].userId == userId && links[n].deviceId in devices1 {
        assert ds1 == earlier1 + [devices1[links[n].deviceId]];
        assert ds2 == earlier2 + [devices2[links[n].deviceId]];
        assert ProjectDevices(ds1) == ProjectDevices(earlier1) + ProjectDevices([devices1[links[n].deviceId]]);
        assert ProjectDevices(ds2) == ProjectDevices(earlier2) + ProjectDevices([devices2[links[n].deviceId]]);
      }
    }
  }


  /** `get_device_gps_data` (api/endpoints/app_user_endpoints.py:164-188). The query of
      `get_gps_data` is the parameter `fetch`, given the device id and the window. */
  function GetDeviceGpsData(
    userId: int, deviceId: int, startTime: Timestamp, endTime: Timestamp,
    fetch: (int, Timestamp, Timestamp) -> seq<GPSData>)
    : (r: Result<AppGPSDataResponse, Failure>)
    ensures r.Failure? <==> endTime <= startTime
    ensures r.Failure? ==> r.error == EmptyTimeWindow && StatusOf(r.error) == InternalServerError
    ensures r.Success? ==> r.value.gpsData == fetch(deviceId, startTime, endTime)
  {
    if endTime <= startTime then Failure(EmptyTimeWindow)
    else Success(AppGPSDataResponse(fetch(deviceId, startTime, endTime)))
  }

  /** An empty or reversed window is refused before the store is queried: the answer is
      the same whatever the query would return. */
  lemma EmptyWindowRefusedBeforeQuery(
    userId: int, deviceId: int, startTime: Timestamp, endTime: Timestamp,
    fetch1: (int, Timestamp, Timestamp) -> seq<GPSData>, fetch2: (int, Timestamp, Timestamp) -> seq<GPSData>)
    requires endTime <= startTime
    ensures GetDeviceGpsData(userId, deviceId, startTime, endTime, fetch1)
            == GetDeviceGpsData(userId, deviceId, startTime, endTime, fetch2)
            == Failure(EmptyTimeWindow)
  {
  }

  /** The `user_id` of `/GPSData` plays no part in the answer: the device is not checked
      to belong to that user. */
  lemma GpsDataIgnoresUserId(
    userId1: int, userId2: int, deviceId: int, startTime: Timestamp, endTime: Timestamp,
    fetch: (int, Timestamp, Timestamp) -> seq<GPSData>)
    ensures GetDeviceGpsData(userId1, deviceId, startTime, endTime, fetch)
            == GetDeviceGpsData(userId2, deviceId, startTime, endTime, fetch)
  {
  }
}
