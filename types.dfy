/** The record shapes of the application's store. Field names follow the
    stored schema (`total_chargers` becomes `totalChargers`); every JavaScript
    `number` is an exact `real`, every optional field an `Option`. */
module Types {
  import opened Wrappers

  /** The two roles a user may hold: "admin" and "user". */
  datatype UserRole = RoleAdmin | RoleUser

  datatype User = User(
    id: string,
    email: string,
    name: string,
    role: UserRole,
    phone: Option<string>,
    createdAt: string)

  /** A station's lifecycle: "active", "maintenance" or "inactive". */
  datatype StationStatus = Active | Maintenance | Inactive

  datatype Station = Station(
    id: string,
    name: string,
    address: string,
    city: string,
    state: string,
    latitude: real,
    longitude: real,
    totalChargers: real,
    availableChargers: real,
    powerOutput: string,
    connectorTypes: seq<string>,
    amenities: seq<string>,
    pricePerKwh: real,
    status: StationStatus,
    ownerId: string,
    createdAt: string,
    updatedAt: string)

  /** A charger's state: "available", "occupied", "maintenance" or "reserved". */
  datatype ChargerStatus = Available | Occupied | Maintenance | Reserved

  datatype Charger = Charger(
    id: string,
    stationId: string,
    chargerNumber: string,
    status: ChargerStatus,
    connectorType: string,
    powerOutput: string,
    currentSessionId: Option<string>)

  /** A booking's lifecycle: "pending", "active", "completed" or "cancelled". */
  datatype BookingStatus = Pending | Active | Completed | Cancelled

  /** A booking's payment state: "pending", "paid" or "failed". */
  datatype PaymentStatus = Pending | Paid | Failed

  datatype Booking = Booking(
    id: string,
    userId: string,
    stationId: string,
    chargerId: string,
    startTime: string,
    endTime: string,
    status: BookingStatus,
    totalKwh: Option<real>,
    totalCost: Option<real>,
    paymentStatus: PaymentStatus,
    createdAt: string)

  /** The stored spelling of a station status. */
  function StationStatusText(s: StationStatus): string {
    match s
    case Active => "active"
    case Maintenance => "maintenance"
    case Inactive => "inactive"
  }

  /** Reads a stored station status back; other strings are not a status. */
  function ParseStationStatus(t: string): (r: Option<StationStatus>)
    ensures r.Some? ==> StationStatusText(r.value) == t
  {
    if t == "active" then Some(StationStatus.Active)
    else if t == "maintenance" then Some(StationStatus.Maintenance)
    else if t == "inactive" then Some(StationStatus.Inactive)
    else None
  }

  /** Reading back the stored spelling gives the same status. */
  lemma StationStatusRoundTrip(s: StationStatus)
    ensures ParseStationStatus(StationStatusText(s)) == Some(s)
  {
  }
}
