// Core value types of the driver-safety frontend (frontend/lib/types.ts).
// Scores and coordinates are `real` (the source only compares them);
// instants are milliseconds since the epoch, as `nat`.

module Types {

  datatype Option<+T> = None | Some(value: T)

  /** The four risk levels. The order safe < moderate < high < critical is
      not declared by the source; it is the order implied by the bucketing
      of the risk score, and Rank gives it. */
  datatype RiskLevel = Safe | Moderate | High | Critical

  function Rank(level: RiskLevel): (r: nat)
    ensures r <= 3
    ensures level == Safe <==> r == 0
    ensures level == Critical <==> r == 3
  {
    match level
    case Safe => 0
    case Moderate => 1
    case High => 2
    case Critical => 3
  }

  /** Alerts that the drive page puts on screen: high or critical. */
  predicate IsUrgent(level: RiskLevel) {
    level == High || level == Critical
  }

  datatype AlertType =
    | Drowsiness | Distraction | PhoneUsage | NoFace
    | Yawning | HeadDrop | Seatbelt | Accident

  /** The string value of each alert type, as it appears in alert ids. */
  function AlertTypeName(t: AlertType): string {
    match t
    case Drowsiness => "drowsiness"
    case Distraction => "distraction"
    case PhoneUsage => "phone_usage"
    case NoFace => "no_face"
    case Yawning => "yawning"
    case HeadDrop => "head_drop"
    case Seatbelt => "seatbelt"
    case Accident => "accident"
  }

  datatype TripStatus = Idle | Active | Paused | Completed | Emergency

  datatype EmergencyContact = EmergencyContact(
    id: string,
    name: string,
    phone: string,
    relationship: string,
    isPrimary: bool)

  datatype Sensitivity = LowSensitivity | MediumSensitivity | HighSensitivity

  datatype UserSettings = UserSettings(
    alertSoundEnabled: bool,
    voiceAlertsEnabled: bool,
    batterySaverMode: bool,
    nightModeAuto: bool,
    sensitivityLevel: Sensitivity,
    language: string)

  datatype User = User(
    id: string,
    email: string,
    name: string,
    avatar: Option<string>,
    phone: Option<string>,
    emergencyContacts: seq<EmergencyContact>,
    settings: UserSettings,
    createdAt: nat)

  datatype Location = Location(
    lat: real,
    lng: real,
    address: Option<string>,
    city: Option<string>,
    timestamp: nat)

  /** A trip of the session store. The route waypoints and the per-trip alert
      list of the source are not part of this model. */
  datatype Trip = Trip(
    id: string,
    userId: string,
    startLocation: Location,
    endLocation: Option<Location>,
    startTime: nat,
    endTime: Option<nat>,
    status: TripStatus,
    distance: real,
    duration: real,
    fatigueScore: real,
    safetyScore: real)

  datatype Alert = Alert(
    id: string,
    kind: AlertType,
    severity: RiskLevel,
    confidence: real,
    timestamp: nat,
    acknowledged: bool)

  datatype HeadPose = HeadPose(pitch: real, yaw: real, roll: real)

  /** One frame's detection result (AIDetectionResult). */
  datatype Detection = Detection(
    drowsinessScore: real,
    distractionScore: real,
    phoneUsageDetected: bool,
    seatbeltDetected: bool,
    faceDetected: bool,
    yawning: bool,
    headPose: HeadPose,
    overallRisk: RiskLevel,
    confidence: real,
    timestamp: nat)

  /** `a` is `b` with some entries left out, the rest in order. */
  predicate Subsequence<T(==)>(a: seq<T>, b: seq<T>)
    decreases |b|
  {
    if a == [] then true
    else if b == [] then false
    else (a[0] == b[0] && Subsequence(a[1..], b[1..])) || Subsequence(a, b[1..])
  }

  function Abs(x: real): (r: real)
    ensures r >= 0.0 && (r == x || r == -x)
  {
    if x < 0.0 then -x else x
  }
}
