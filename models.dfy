/** Rows of the credential store (api/db/models.py), the shape of an inbound JSON body,
    the errors a handler can end with, and the table lookups the handlers use
    (get_device in api/db/devices.py, get_user in api/db/users.py). */
module Models {
  import opened Wrappers

  /** Datetimes are only ever compared, so an integer stands for one. */
  type Timestamp = int

  /** Latitude and longitude are stored and returned, never computed with. */
  type Coordinate = real

  /** Row of the "devices" table. */
  datatype Device = Device(
    deviceId: int,
    accessToken: string,
    smsNumber: string,
    createdAt: Timestamp,
    control1: Option<bool>,
    control2: Option<bool>,
    control3: Option<bool>,
    control4: Option<bool>)

  /** Row of the "gps_data" table. */
  datatype GPSData = GPSData(deviceId: int, time: Timestamp, latitude: Coordinate, longitude: Coordinate)

  /** Row of the "users" table. */
  datatype User = User(
    userId: int,
    emailAddress: string,
    phoneNumber: string,
    name: string,
    salt: string,
    hashedPassword: string,
    accessToken: string,
    createdAt: Timestamp)

  /** Row of the "users_devices" table. */
  datatype UserDevice = UserDevice(userId: int, deviceId: int)

  /** The JSON body of a request as the guards read it: either something that is not a
      JSON object (reading it raises), or an object whose integer-valued fields are kept;
      a missing key and an explicit null both read as absent. */
  datatype Body = Malformed | JsonObject(fields: map<string, int>) {
    /** `body.get(key)` */
    function Get(key: string): Option<int>
      requires JsonObject?
    {
      if key in fields then Some(fields[key]) else None
    }
  }

  /** How a handler can end other than normally: an HTTPException it raises on purpose,
      or any other exception, which the web framework turns into a 500 response. */
  datatype Failure = HttpError(status: int, detail: string) | Unhandled(reason: string)

  const BadRequest: int := 400
  const Unauthorized: int := 401
  const NotFound: int := 404
  const Conflict: int := 409
  const InternalServerError: int := 500

  /** The status code the client receives for a failure: an unhandled exception is
      answered with 500. */
  function StatusOf(f: Failure): int {
    match f
    case HttpError(status, _) => status
    case Unhandled(_) => InternalServerError
  }

  /** The devices table, keyed by its primary key. */
  ghost predicate DevicesKeyed(devices: map<int, Device>) {
    forall id :: id in devices ==> devices[id].deviceId == id
  }

  /** The users table, keyed by its primary key. */
  ghost predicate UsersKeyed(users: map<int, User>) {
    forall id :: id in users ==> users[id].userId == id
  }

  /** No two users share an email address. */
  ghost predicate EmailsUnique(users: map<int, User>) {
    forall i, j :: i in users && j in users && users[i].emailAddress == users[j].emailAddress ==> i == j
  }

  /** Some user has this email address. */
  predicate EmailTaken(users: map<int, User>, email: string) {
    exists id | id in users :: users[id].emailAddress == email
  }

  /** `get_device`: the row with this id, if any. */
  function GetDevice(devices: map<int, Device>, deviceId: int): (r: Option<Device>)
    ensures r.None? <==> deviceId !in devices
    ensures r.Some? ==> r.value == devices[deviceId]
  {
    if deviceId in devices then Some(devices[deviceId]) else None
  }

  /** `get_user`: the row with this id, if any. */
  function GetUser(users: map<int, User>, userId: int): (r: Option<User>)
    ensures r.None? <==> userId !in users
    ensures r.Some? ==> r.value == users[userId]
  {
    if userId in users then Some(users[userId]) else None
  }

  /** `get_user_by_email`: a user with this email address, if any. */
  ghost function UserByEmail(users: map<int, User>, email: string): (r: Option<User>)
    ensures r.Some? ==> r.value in users.Values && r.value.emailAddress == email
    ensures r.None? <==> !EmailTaken(users, email)
  {
    if EmailTaken(users, email) then
      var id :| id in users && users[id].emailAddress == email;
      Some(users[id])
    else
      None
  }

  /** With unique emails, the lookup by email finds exactly the user holding that email. */
  lemma UserByEmailFindsOwner(users: map<int, User>, id: int)
    requires EmailsUnique(users)
    requires id in users
    ensures UserByEmail(users, users[id].emailAddress) == Some(users[id])
  {
  }
}
