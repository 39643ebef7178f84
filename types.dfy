/**
 * The records of the app (types/api.ts) and the offline queue entry. Fields that the
 * app copies unconverted out of untyped server data are JavaScript values (Json);
 * optional fields that the app builds itself are Options.
 */
module Types {
  import opened Wrappers
  import opened Js

  /** A vehicle as the asset query returns it: the raw server object seen through the Asset interface. */
  datatype Asset = Asset(id: Json, name: Json, assetType: Json, model: Json, licensePlate: Json)

  /** A driver as the driver-query mapper builds it: `name` is computed, the rest is copied. */
  datatype Driver = Driver(id: Json, name: string, firstName: Json, lastName: Json, email: Json, phone: Json)

  /** A container ("bac") as the geodata mapper builds it. */
  datatype Bac = Bac(id: Json, name: Json, location: Json, capacity: Json, bacType: Json)

  /** A position fix; coordinates and times are opaque integers in this model. */
  datatype Location = Location(latitude: int, longitude: int, accuracy: Option<int>, timestamp: int, address: Option<string>)

  /** The logged-in user; `companyOwner` is the `_company_owner` value the server sends (an object or an id). */
  datatype User = User(id: string, firstName: string, lastName: string, login: string, role: string,
                       creationDt: string, companyOwner: Json)

  datatype AuthData = AuthData(user: User, token: string)

  datatype LoginRequest = LoginRequest(login: string, password: string)

  datatype LoginResponse = LoginResponse(success: bool, result: AuthData)

  datatype LogoutRequest = LogoutRequest(id: string)

  datatype LogoutResponse = LogoutResponse(success: bool)

  /** The mission draft held by the form store. */
  datatype FormDraft = FormDraft(
    selectedAsset: Option<Asset>,
    selectedDriver: Option<Driver>,
    selectedBac: Option<Bac>,
    photo: Option<string>,
    description: string,
    location: Option<Location>,
    date: string)

  /** A submission body: a JavaScript object literal, as its own key map. */
  type Payload = map<string, Json>

  /** One offline queue entry (OfflineForm); `title` is `undefined` (JUndef) when the payload had none. */
  datatype Entry = Entry(id: string, title: Json, data: Payload, timestamp: nat)
}
