/** The device-facing handlers of api/endpoints/device_data_endpoints.py: telemetry
    upload, device registration (check, then insert) and linking a device to a user. */
module DeviceDataEndpoints {
  import opened Wrappers
  import opened Models
  import opened Database
  import Authorisation

  /** Body of `/sendGPSData`. */
  datatype DeviceData = DeviceData(deviceId: int, latitude: Coordinate, longitude: Coordinate, timestamp: Timestamp)

  /** What `/sendGPSData` answers; `data` is never filled in. */
  datatype DeviceDataResponse = DeviceDataResponse(success: bool, message: string, data: Option<DeviceData>)

  /** Body of `/registerDevice`; control flags left out of the request are `None`. */
  datatype DeviceRegistrationData = DeviceRegistrationData(
    deviceId: int,
    accessToken: string,
    smsNumber: string,
    control1: Option<bool> := None,
    control2: Option<bool> := None,
    control3: Option<bool> := None,
    control4: Option<bool> := None)

  /** Body of `/registerDeviceToUser`. */
  datatype UserDeviceRegistrationData = UserDeviceRegistrationData(deviceId: int, userId: int)

  /** The `{"success": ..., "message": ...}` dictionaries the registration handlers return. */
  datatype Acknowledgement = Acknowledgement(success: bool, message: string)

  const DeviceExists: Failure := HttpError(Conflict, "Device with this ID already exists")

  /** The row `register_device` asks the store to create: the request's fields verbatim. */
  function RegisteredRow(data: DeviceRegistrationData, now: Timestamp): Device {
    Device(data.deviceId, data.accessToken, data.smsNumber, now, data.control1, data.control2, data.control3, data.control4)
  }

  /** `send_gps_data` (api/endpoints/device_data_endpoints.py:28-46). */
  method SendGpsData(db: Store, deviceData: DeviceData) returns (response: DeviceDataResponse)
    modifies db
    ensures db.gpsData == old(db.gpsData) + [GPSData(deviceData.deviceId, deviceData.timestamp, deviceData.latitude, deviceData.longitude)]
    ensures db.devices == old(db.devices) && db.users == old(db.users) && db.userDevices == old(db.userDevices)
    ensures db.nextUserId == old(db.nextUserId)
    ensures response == DeviceDataResponse(true, "GPS data saved successfully", None)
  {
    db.AddGpsData(deviceData.deviceId, deviceData.timestamp, deviceData.latitude, deviceData.longitude);
    response := DeviceDataResponse(true, "GPS data saved successfully", None);
  }

  /** `register_device` (api/endpoints/device_data_endpoints.py:59-87). The creation time
      comes from the database clock, here the parameter `now`. */
  method RegisterDevice(db: Store, data: DeviceRegistrationData, now: Timestamp) returns (r: Result<Acknowledgement, Failure>)
    requires db.Valid()
    modifies db
    ensures db.Valid()
    ensures data.deviceId in old(db.devices) ==> r == Failure(DeviceExists) && db.devices == old(db.devices)
    ensures data.deviceId !in old(db.devices) ==>
              && r == Success(Acknowledgement(true, "Device registered successfully"))
              && db.devices == old(db.devices)[data.deviceId := RegisteredRow(data, now)]
    ensures db.users == old(db.users) && db.userDevices == old(db.userDevices) && db.gpsData == old(db.gpsData)
    ensures db.nextUserId == old(db.nextUserId)
    // a device that registers with a usable id and token passes the device guard with them
    ensures r.Success? && data.deviceId != 0 && data.accessToken != "" ==>
              Authorisation.AuthoriseDevice(JsonObject(map["device_id" := data.deviceId]), Some(data.accessToken), db.devices)
                == Authorisation.Accept
  {
    var existing := GetDevice(db.devices, data.deviceId);
    if existing.Some? {
      return Failure(DeviceExists);
    }
    var inserted := db.CreateDevice(RegisteredRow(data, now));
    r := Success(Acknowledgement(true, "Device registered successfully"));
    if data.deviceId != 0 && data.accessToken != "" {
      RegisteredDeviceIsAuthorised(old(db.devices), data, now);
    }
  }

  /** `register_device_to_user` (api/endpoints/device_data_endpoints.py:95-108): no check
      that the user or the device exists, and always a success message. */
  method RegisterDeviceToUser(db: Store, registration: UserDeviceRegistrationData) returns (response: Acknowledgement)
    modifies db
    ensures db.userDevices == old(db.userDevices) + [UserDevice(registration.userId, registration.deviceId)]
    ensures db.devices == old(db.devices) && db.users == old(db.users) && db.gpsData == old(db.gpsData)
    ensures db.nextUserId == old(db.nextUserId)
    ensures response == Acknowledgement(true, "Device registered to user successfully")
  {
    db.CreateUserDeviceRow(registration.userId, registration.deviceId);
    response := Acknowledgement(true, "Device registered to user successfully");
  }

  /** The row stored for a fresh registration holds the request's token, number and
      flags unchanged, and flags the request left out are stored as `None`. */
  lemma RegisteredRowIsVerbatim(deviceId: int, accessToken: string, smsNumber: string, now: Timestamp)
    ensures var row := RegisteredRow(DeviceRegistrationData(deviceId, accessToken, smsNumber), now);
            && row.deviceId == deviceId && row.accessToken == accessToken && row.smsNumber == smsNumber
            && row.control1 == row.control2 == row.control3 == row.control4 == None
  {
  }

  /** Registering a fresh device with a nonzero id and a nonempty token makes the
      device guard accept exactly that id and token. */
  lemma RegisteredDeviceIsAuthorised(devices: map<int, Device>, data: DeviceRegistrationData, now: Timestamp)
    requires data.deviceId !in devices && data.deviceId != 0 && data.accessToken != ""
    ensures Authorisation.AuthoriseDevice(
              JsonObject(map["device_id" := data.deviceId]), Some(data.accessToken),
              devices[data.deviceId := RegisteredRow(data, now)])
            == Authorisation.Accept
  {
  }

  /** A device registered under id 0 or with an empty token can never pass the device
      guard, although `register_device` accepts such a registration. */
  lemma UnusableRegistrationNeverAuthorised(
    devices: map<int, Device>, data: DeviceRegistrationData, now: Timestamp, body: Body, accessToken: Option<string>)
    requires data.deviceId !in devices && (data.deviceId == 0 || data.accessToken == "")
    requires body.JsonObject? && body.Get("device_id") == Some(data.deviceId)
    ensures Authorisation.AuthoriseDevice(body, accessToken, devices[data.deviceId := RegisteredRow(data, now)]).Reject?
  {
  }
}
