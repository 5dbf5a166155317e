/** Values shared by every component: time, doubles, flight commands and what a
    component sees of the vehicle. */
module FlightTypes {

  datatype Option<+T> = None | Some(value: T)

  type Byte = i: int | 0 <= i < 256

  /** Nanoseconds on the monotonic clock. */
  type Time = int

  const MILLISECOND: Time := 1_000_000
  const SECOND: Time := 1000 * MILLISECOND

  /** A double: a real number (rounding is not modelled) or a non-finite value. */
  datatype Double = NaN | Infinite(negative: bool) | Num(value: real)

  datatype FlightAction = SetGuidedMode | Arm | Takeoff | ReturnToLaunch | Land | LandingTarget

  datatype AckOutcome = Accepted | InProgress | Rejected

  datatype BodyPosition = BodyPosition(forward: Double, right: Double, down: Double)

  datatype CameraPosition = CameraPosition(right: Double, down: Double, forward: Double)

  const ORIGIN := BodyPosition(Num(0.0), Num(0.0), Num(0.0))

  datatype FlightRequest = FlightRequest(
    action: FlightAction,
    systemId: Byte,
    confirmation: Byte,
    altitude: real,
    position: BodyPosition,
    timeUsec: int)

  /** A COMMAND_LONG request; the fields it does not use keep their zero defaults. */
  function CommandRequest(action: FlightAction, systemId: Byte, confirmation: Byte, altitude: real): FlightRequest {
    FlightRequest(action, systemId, confirmation, altitude, ORIGIN, 0)
  }

  /** What the application and its components read of one vehicle snapshot. */
  datatype Vehicle = Vehicle(
    connected: bool,
    systemId: Option<Byte>,
    vehicleType: Option<Byte>,
    autopilotType: Option<Byte>,
    flightMode: Option<int>,
    armed: bool,
    relativeAltitude: Option<real>,
    gpsReady: bool,
    batteryReady: bool,
    healthOk: bool,
    armable: bool,
    metadataKnown: bool,
    armingVoltageKnown: bool,
    warnings: seq<string>)
}
