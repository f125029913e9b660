# GPS Tracking Server: request authorisation and credential registration

This project models the decision logic of the GPS Tracking Server's API. Tracking devices
upload positions, and app users read the positions of their devices. Every request on the
two mounted routers first passes a guard. The guard takes a claimed device or user id and
the `Access-Token` header, looks the id up in the credential store, and either lets the
request through or ends it with 400 or 401. The model also covers the handlers that create
and use those credentials: device registration (409 on a duplicate id, otherwise the token
is stored verbatim), linking a device to a user, telemetry upload, signup (409 on a taken
email, 500 on a storage error), login (one generic 401), and the three read-only user
queries.

The store is a class, `Database.Store`. It holds the devices and users tables as maps keyed
by id, and the user–device links and GPS rows as sequences. Its write operations are
methods that state the whole new state. The guards and the read-only handlers are
functions of the tables. Because they take the tables as values, they cannot change them.

Modules, one per source file of the core, plus a helper and the database layer:

- `Wrappers`: Option and Result (a helper with no source counterpart).
- `Models`: the rows of `api/db/models.py`; the request body (`Malformed`, or a JSON object
  with integer fields); the failure kinds (an `HTTPException`, or any other exception, which
  the framework answers with 500); and the table lookups.
- `Authorisation`: `authorise_device` and `authorise_user`.
- `Database`: the store and the write helpers behind `api/db/devices.py`, `api/db/users.py`
  and `api/db/gps_data.py` (the connection handling of `api/db/database.py` is left out).
- `DeviceDataEndpoints`: `send_gps_data`, `register_device` and `register_device_to_user`.
- `AppUserEndpoints`: `signup`, `login`, `get_user_info`, `get_user_devices` and
  `get_device_gps_data`.
- `Routes`: the wiring of `api/main.py`.

Python truthiness is modelled explicitly. A claimed id that is absent or `0` counts as
missing, and so does a token that is absent or empty. As a result, a device registered with
id 0, or with an empty token, can never pass the device guard, even though
`register_device` accepts such a registration.

Points where the code behaves differently from what one might expect of it; the model
follows the code:

- An unknown device and a wrong token both get 401, but with different details ("Device ID
  does not exist" and "Invalid access token"), so a caller can tell them apart. The model
  keeps those details.
- A hardened guard would compare tokens in constant time. The code uses plain equality,
  which the model states as equality.
- Signup, login and device registration have handlers, but in `api/main.py` their routers
  (`auth_router` and `device_registration_router`) are never mounted, so `Routes.Admit`
  answers 404 for them. Their handlers are still modelled.
- `/GPSData` takes `user_id` only for the guard. `GpsDataIgnoresUserId` states that the
  answer does not depend on it: nothing checks that the device belongs to the user.

## Model

| member | source | states |
|---|---|---|
| `Models.GetDevice` | api/db/devices.py:7-19 | returns the row stored under the device id, or None exactly when there is none |
| `Models.GetUser` | api/db/users.py:7-19 | returns the row stored under the user id, or None exactly when there is none |
| `Models.UserByEmail` | api/endpoints/app_user_endpoints.py:46-47 | the lookup by email finds nothing exactly when no stored user has the email; otherwise it finds a stored user with that email |
| `Models.UserByEmailFindsOwner` | api/endpoints/app_user_endpoints.py:46-47 | when emails are unique, the lookup by email returns exactly the user who holds that email |
| `Authorisation.AuthoriseDevice` | api/endpoints/authorisation.py:11-40 | accepts iff the body names a nonzero device id, a nonempty token is presented, and the token equals the stored device's token; an absent or 0 id gives 400 whatever the token; otherwise a missing token, an unknown device and a token mismatch each give their own 401; a readable body is refused only with 400 or 401; an unreadable body raises, which the client sees as 500 |
| `Authorisation.AuthoriseUser` | api/endpoints/authorisation.py:43-76 | accepts iff the claimed user (the query id if one is given, else the body's) is nonzero, exists, and holds the nonempty presented token; a query id of 0 gives 400; with no query id, an unreadable body raises (500); the 401 taxonomy matches the device guard |
| `Authorisation.DeviceTokenCheckPrecedesLookup` | api/endpoints/authorisation.py:25-31 | with no token, the device guard's answer does not depend on the devices table |
| `Authorisation.UserTokenCheckPrecedesLookup` | api/endpoints/authorisation.py:61-67 | with no token, the user guard's answer does not depend on the users table |
| `Authorisation.QueryUserIdShadowsBody` | api/endpoints/authorisation.py:50-59 | when the query carries `user_id`, the body is never read: any two bodies, including an unreadable one, give the same decision |
| `Database.Store.CreateDevice` | api/endpoints/device_data_endpoints.py:76-85 | inserts the row iff its id is new; otherwise the table is unchanged; the other tables are unchanged |
| `Database.Store.CreateUserDeviceRow` | api/endpoints/device_data_endpoints.py:102-106 | appends exactly the (user, device) link and changes nothing else |
| `Database.Store.AddGpsData` | api/db/gps_data.py:6-26 | appends exactly one GPS row with the given fields and changes nothing else |
| `Database.Store.CreateUser` | api/endpoints/app_user_endpoints.py:54-61 | on a storage error, stores nothing and reports the error; otherwise adds exactly one user under a fresh id, with the given fields, the salt, the digest of the password under that salt, and the token |
| `DeviceDataEndpoints.SendGpsData` | api/endpoints/device_data_endpoints.py:28-46 | appends exactly one GPS row with the upload's device id, time and coordinates; the other tables are unchanged; always reports success |
| `DeviceDataEndpoints.RegisterDevice` | api/endpoints/device_data_endpoints.py:59-87 | a known id gives 409 and leaves the store unchanged; a fresh id adds exactly that one row, holding the request's token, number and flags verbatim, and leaves every other entry unchanged; afterwards the device guard accepts that id with that token when both are usable |
| `DeviceDataEndpoints.RegisterDeviceToUser` | api/endpoints/device_data_endpoints.py:95-108 | appends the link without checking that the user or the device exists; always reports success; changes nothing else |
| `DeviceDataEndpoints.RegisteredRowIsVerbatim` | api/endpoints/device_data_endpoints.py:49-85 | the stored row carries the request's token and number unchanged; control flags the request leaves out are stored as None |
| `DeviceDataEndpoints.RegisteredDeviceIsAuthorised` | api/endpoints/device_data_endpoints.py:76-85 | after a fresh registration with a nonzero id and a nonempty token, the device guard accepts that id with that token |
| `DeviceDataEndpoints.UnusableRegistrationNeverAuthorised` | api/endpoints/authorisation.py:20-28 | a device registered with id 0 or with an empty token is refused by the device guard, whatever the presented token |
| `AppUserEndpoints.Signup` | api/endpoints/app_user_endpoints.py:38-74 | a taken email gives 409 and creates nothing; a storage error gives 500 "Failed to create user: <cause>" and creates nothing; otherwise exactly one user is added under a fresh id, and its id, email, phone, name and token are returned; unique emails are preserved; the new account can log in at once with its password |
| `AppUserEndpoints.SignupKeepsEmailsUnique` | api/endpoints/app_user_endpoints.py:45-61 | adding a user whose email is free keeps emails unique |
| `AppUserEndpoints.VerifyUserPassword` | api/endpoints/app_user_endpoints.py:85-89 | returns only a stored user who holds the given email and whose stored digest is the digest of the given password under that user's salt |
| `AppUserEndpoints.Login` | api/endpoints/app_user_endpoints.py:77-103 | fails iff verification finds nobody, always with the one 401 "Invalid email address or password"; on success returns a stored user's id, email, phone, name and stored token, unchanged |
| `AppUserEndpoints.LoginFailuresIndistinguishable` | api/endpoints/app_user_endpoints.py:91-95 | an unknown email and a wrong password produce the same failure |
| `AppUserEndpoints.LoginReturnsStoredToken` | api/endpoints/app_user_endpoints.py:97-103 | with unique emails, the right password logs into the account holding the email and returns its token on record |
| `AppUserEndpoints.GetUserInfo` | api/endpoints/app_user_endpoints.py:111-129 | an unknown id gives 404 "User not found"; otherwise the answer has exactly the user's id, email, phone and name |
| `AppUserEndpoints.UserInfoHidesSecrets` | api/endpoints/app_user_endpoints.py:105-129 | the answer does not depend on salt, digest or token: stores that agree on the public fields answer alike |
| `AppUserEndpoints.DevicesOfUser` | api/endpoints/app_user_endpoints.py:149 | lists exactly as many devices as the user has links to stored devices; each listed device is a stored device linked to the user; in a keyed table each stored device appears exactly as many times as the user is linked to it, so a link added twice lists its device twice |
| `AppUserEndpoints.LinkedDeviceListed` | api/endpoints/app_user_endpoints.py:149 | every stored device linked to the user is listed |
| `AppUserEndpoints.ProjectDevices` | api/endpoints/app_user_endpoints.py:151-158 | one response per device, in order, with id, SMS number and the four flags copied unchanged |
| `AppUserEndpoints.GetUserDevices` | api/endpoints/app_user_endpoints.py:140-158 | every entry describes a stored device linked to the user |
| `AppUserEndpoints.LinkedDeviceReported` | api/endpoints/app_user_endpoints.py:140-158 | every stored device linked to the user has its entry |
| `AppUserEndpoints.UserDevicesHideTokens` | api/endpoints/app_user_endpoints.py:132-158 | the answer does not depend on device tokens or creation times |
| `AppUserEndpoints.GetDeviceGpsData` | api/endpoints/app_user_endpoints.py:164-188 | fails iff `end_time <= start_time`, by raising, which the client sees as 500; otherwise returns exactly what the GPS query gives for that device and window |
| `AppUserEndpoints.EmptyWindowRefusedBeforeQuery` | api/endpoints/app_user_endpoints.py:174-177 | an empty or reversed window is refused whatever the store would return |
| `AppUserEndpoints.GpsDataIgnoresUserId` | api/endpoints/app_user_endpoints.py:164-184 | the answer is the same for any `user_id`: device ownership is not checked |
| `Routes.Admit` | api/main.py:27-38 | a request passes the guard of its router iff that router is mounted and the request carries the credential that router's guard demands (device credential for the device router, user credential for the app-user router); an endpoint of an unmounted router gives 404 |
| `Routes.AdmittedUploadCarriesDeviceToken` | api/main.py:27-32 | an admitted telemetry upload names a registered, nonzero device id and presents that device's token |

## Left out

- Password hashing, salt generation and token generation are not modelled. The hasher is a
  function parameter, and the salt and the token are parameters of signup. Their
  cryptographic properties (one-wayness, entropy, uniqueness of tokens) are not stated.
- `Database.Store.CreateUser`, `Models.UserByEmail` and `AppUserEndpoints.VerifyUserPassword`
  stand for `create_user`, `get_user_by_email` and `verify_user_password`. These are imported
  by `api/endpoints/app_user_endpoints.py` but are not defined in `api/db/users.py`. The
  model gives them the behaviour their names and callers imply: create stores one user under
  a fresh id drawn from a counter, as a database sequence would; lookup by email picks a
  user with that email; verify checks the digest with the stored salt.
- `create_device`, `create_user_device_row`, `get_devices_by_user_id` and `get_gps_data` are
  imported but not shown. They are modelled as a keyed insert, a link append, a join over
  the links, and a `fetch` parameter of `GetDeviceGpsData`.
- `AppUserEndpoints.DevicesOfUser`: the order of the listed devices (link order) is an
  assumption, because the query that produces it is not shown.
- SQL, psycopg2 and the lazily created singleton connection of `api/db/database.py` are not
  modelled. Lookups are map lookups and inserts are map updates or sequence appends.
- Storage errors are modelled only where the code handles them, in signup. Elsewhere a
  failing query would raise, and the model does not cover that.
- FastAPI request validation is not modelled: a 422 for a body or query parameter of the
  wrong type, and a JSON id that is not an integer. In particular, a body that is not valid
  JSON sent to `/sendGPSData` or `/registerDeviceToUser` is refused with 422 by the body
  parsing of those handlers before `authorise_device` runs; the model's `Malformed` body,
  answered with 500 as an unhandled exception, is right only for an empty body or for JSON
  that is not an object. Required handler parameters are also checked only after the guard
  has accepted: all three app-user handlers require `user_id` in the query, so a request
  that names its user only in the body passes `authorise_user` through the body fallback
  and then ends in 422; likewise an upload missing a `DeviceData` field after the device
  guard accepts. `Routes.Admit` states passing the guard, not reaching the handler.
- Concurrency: the check-then-insert of signup and of device registration is modelled as
  sequential, so the race between two concurrent requests is not captured. In that race
  the second insert of a device id would hit the primary key and raise, giving 500;
  `Database.Store.CreateDevice` instead reports the refusal and leaves the table unchanged,
  a path no sequential caller reaches.
- Constant-time comparison of tokens and digests is a timing property and is not modelled.
- AppUserEndpoints.GetDeviceGpsData: timestamps are integers, so the model does not capture
  that comparing a timezone-aware `start_time` with a naive `end_time` (or the reverse)
  raises `TypeError` in the source, answered with 500; the model then compares the two
  instants and may succeed.
- Latitude and longitude are reals, stored and returned only. Datetimes are integers, used
  only in the window comparison.
- CORS, dotenv and uvicorn are not modelled.
- `api/endpoints/device_data_endpoint.py` is not part of this model. It is an unused
  duplicate of `send_gps_data`.
