/** The credential and telemetry store the handlers talk to: the four tables of
    api/db/models.py as fields that the write operations replace. The SQL and the
    connection handling of the api/db modules are not modelled; a lookup is a map lookup and an
    insert is a map update or a sequence append. */
module Database {
  import opened Wrappers
  import opened Models

  class Store {
    var devices: map<int, Device>
    var users: map<int, User>
    var userDevices: seq<UserDevice>
    var gpsData: seq<GPSData>
    /** The next id the users table hands out, as a database sequence would. */
    var nextUserId: int

    /** Each table is keyed by its primary key and the id counter is past every id in use. */
    ghost predicate Valid()
      reads this
    {
      && DevicesKeyed(devices)
      && UsersKeyed(users)
      && 0 < nextUserId
      && forall id :: id in users ==> id < nextUserId
    }

    constructor ()
      ensures Valid()
      ensures devices == map[] && users == map[] && userDevices == [] && gpsData == []
    {
      devices, users, userDevices, gpsData := map[], map[], [], [];
      nextUserId := 1;
    }

    /** `create_device`: inserts a row; a second row with the same primary key is refused
        and the table is left as it was. The database would raise there, and
        `register_device` does not catch it, so the answer would be 500; its own check for
        an existing id keeps a sequential caller off that path. */
    method CreateDevice(device: Device) returns (inserted: bool)
      requires Valid()
      modifies this
      ensures Valid()
      ensures inserted <==> device.deviceId !in old(devices)
      ensures devices == if inserted then old(devices)[device.deviceId := device] else old(devices)
      ensures users == old(users) && userDevices == old(userDevices) && gpsData == old(gpsData)
      ensures nextUserId == old(nextUserId)
    {
      inserted := device.deviceId !in devices;
      if inserted {
        devices := devices[device.deviceId := device];
      }
    }

    /** `create_user_device_row`: appends a link, checking neither end. */
    method CreateUserDeviceRow(userId: int, deviceId: int)
      modifies this
      ensures userDevices == old(userDevices) + [UserDevice(userId, deviceId)]
      ensures devices == old(devices) && users == old(users) && gpsData == old(gpsData)
      ensures nextUserId == old(nextUserId)
    {
      userDevices := userDevices + [UserDevice(userId, deviceId)];
    }

    /** `add_gps_data` (api/db/gps_data.py:6-26): appends one row. */
    method AddGpsData(deviceId: int, timestamp: Timestamp, latitude: Coordinate, longitude: Coordinate)
      modifies this
      ensures gpsData == old(gpsData) + [GPSData(deviceId, timestamp, latitude, longitude)]
      ensures devices == old(devices) && users == old(users) && userDevices == old(userDevices)
      ensures nextUserId == old(nextUserId)
    {
      gpsData := gpsData + [GPSData(deviceId, timestamp, latitude, longitude)];
    }

    /** `create_user`: stores a new user under a fresh id, with the digest the password
        hasher derives from the password and the salt, and the issued token. The salt,
        the token, the clock and the hasher are the caller's; `fault` stands for a
        storage error, in which case nothing is stored. */
    method CreateUser(
      emailAddress: string, phoneNumber: string, name: string, password: string,
      hasher: (string, string) -> string, salt: string, token: string, now: Timestamp,
      fault: Option<string>)
      returns (r: Result<User, string>)
      requires Valid()
      modifies this
      ensures Valid()
      ensures r.Failure? <==> fault.Some?
      ensures r.Failure? ==> r.error == fault.value && users == old(users)
      ensures r.Success? ==>
                && r.value.userId !in old(users)
                && r.value == User(r.value.userId, emailAddress, phoneNumber, name, salt, hasher(password, salt), token, now)
                && users == old(users)[r.value.userId := r.value]
      ensures devices == old(devices) && userDevices == old(userDevices) && gpsData == old(gpsData)
    {
      if fault.Some? {
        return Failure(fault.value);
      }
      var user := User(nextUserId, emailAddress, phoneNumber, name, salt, hasher(password, salt), token, now);
      users := users[nextUserId := user];
      nextUserId := nextUserId + 1;
      r := Success(user);
    }
  }
}
