/**
 * The shared record shapes and closed enumerations of the pilgrim-safety
 * application (shared/schema.ts). Each enumeration comes with the string it
 * stands for and a parser that accepts exactly those strings; each insert
 * shape is its record without the identifier and timestamp the store assigns.
 * Timestamps are epoch milliseconds (the instant the ISO string denotes).
 */
module Schema {
  import opened Wrappers

  type Timestamp = int

  // ---------------------------------------------------------------- enums

  datatype Role = Pilgrim | Administrator | Police | Medical | Coordinator

  function RoleName(r: Role): string {
    match r
    case Pilgrim => "pilgrim"
    case Administrator => "administrator"
    case Police => "police"
    case Medical => "medical"
    case Coordinator => "coordinator"
  }

  /** `z.enum([...])` for roles: accepts exactly the five role names. */
  function ParseRole(s: string): (r: Option<Role>)
    ensures r.Some? ==> RoleName(r.value) == s
    ensures r.None? ==> forall x: Role :: RoleName(x) != s
  {
    if s == "pilgrim" then Some(Pilgrim)
    else if s == "administrator" then Some(Administrator)
    else if s == "police" then Some(Police)
    else if s == "medical" then Some(Medical)
    else if s == "coordinator" then Some(Coordinator)
    else None
  }

  const RoleNames: set<string> := {"pilgrim", "administrator", "police", "medical", "coordinator"}

  /** The role enumeration is closed: exactly five strings are accepted. */
  lemma RoleEnumIsClosed(s: string)
    ensures ParseRole(s).Some? <==> s in RoleNames
    ensures |RoleNames| == 5
  {
    assert RoleNames == {RoleName(Pilgrim)} + {RoleName(Administrator)} + {RoleName(Police)}
      + {RoleName(Medical)} + {RoleName(Coordinator)};
  }

  datatype AlertType = Emergency | MedicalAlert | Crowd | MissingPerson | Security

  function AlertTypeName(t: AlertType): string {
    match t
    case Emergency => "emergency"
    case MedicalAlert => "medical"
    case Crowd => "crowd"
    case MissingPerson => "missing_person"
    case Security => "security"
  }

  function ParseAlertType(s: string): (r: Option<AlertType>)
    ensures r.Some? ==> AlertTypeName(r.value) == s
    ensures r.None? ==> forall x: AlertType :: AlertTypeName(x) != s
  {
    if s == "emergency" then Some(Emergency)
    else if s == "medical" then Some(MedicalAlert)
    else if s == "crowd" then Some(Crowd)
    else if s == "missing_person" then Some(MissingPerson)
    else if s == "security" then Some(Security)
    else None
  }

  datatype AlertStatus = Active | Responding | Resolved

  function AlertStatusName(s: AlertStatus): string {
    match s
    case Active => "active"
    case Responding => "responding"
    case Resolved => "resolved"
  }

  function ParseAlertStatus(s: string): (r: Option<AlertStatus>)
    ensures r.Some? ==> AlertStatusName(r.value) == s
    ensures r.None? ==> forall x: AlertStatus :: AlertStatusName(x) != s
  {
    if s == "active" then Some(Active)
    else if s == "responding" then Some(Responding)
    else if s == "resolved" then Some(Resolved)
    else None
  }

  datatype Priority = Low | Medium | High | Critical

  function PriorityName(p: Priority): string {
    match p
    case Low => "low"
    case Medium => "medium"
    case High => "high"
    case Critical => "critical"
  }

  function ParsePriority(s: string): (r: Option<Priority>)
    ensures r.Some? ==> PriorityName(r.value) == s
    ensures r.None? ==> forall x: Priority :: PriorityName(x) != s
  {
    if s == "low" then Some(Low)
    else if s == "medium" then Some(Medium)
    else if s == "high" then Some(High)
    else if s == "critical" then Some(Critical)
    else None
  }

  const AlertTypeNames: set<string> := {"emergency", "medical", "crowd", "missing_person", "security"}
  const AlertStatusNames: set<string> := {"active", "responding", "resolved"}
  const PriorityNames: set<string> := {"low", "medium", "high", "critical"}

  /** The alert type is a closed enumeration of five values. */
  lemma AlertTypeEnumIsClosed(s: string)
    ensures ParseAlertType(s).Some? <==> s in AlertTypeNames
    ensures |AlertTypeNames| == 5
  {
    assert AlertTypeNames == {AlertTypeName(Emergency)} + {AlertTypeName(MedicalAlert)}
      + {AlertTypeName(Crowd)} + {AlertTypeName(MissingPerson)} + {AlertTypeName(Security)};
  }

  /** The alert status is a closed enumeration of three values. */
  lemma AlertStatusEnumIsClosed(s: string)
    ensures ParseAlertStatus(s).Some? <==> s in AlertStatusNames
    ensures |AlertStatusNames| == 3
  {
    assert AlertStatusNames == {AlertStatusName(Active)} + {AlertStatusName(Responding)}
      + {AlertStatusName(Resolved)};
  }

  /** The alert priority is a closed enumeration of four values. */
  lemma PriorityEnumIsClosed(s: string)
    ensures ParsePriority(s).Some? <==> s in PriorityNames
    ensures |PriorityNames| == 4
  {
    assert PriorityNames == {PriorityName(Low)} + {PriorityName(Medium)} + {PriorityName(High)}
      + {PriorityName(Critical)};
  }

  /** The crowd level stored with a heatmap record. */
  datatype CrowdLevel = Safe | Moderate | Crowded

  function CrowdLevelName(c: CrowdLevel): string {
    match c
    case Safe => "safe"
    case Moderate => "moderate"
    case Crowded => "crowded"
  }

  /** The units that may post to the communication channel; pilgrims are not one. */
  datatype Unit = PoliceUnit | MedicalUnit | CoordinatorUnit | AdministratorUnit

  function UnitName(u: Unit): string {
    match u
    case PoliceUnit => "police"
    case MedicalUnit => "medical"
    case CoordinatorUnit => "coordinator"
    case AdministratorUnit => "administrator"
  }

  function ParseUnit(s: string): (r: Option<Unit>)
    ensures r.Some? ==> UnitName(r.value) == s
    ensures r.None? ==> forall x: Unit :: UnitName(x) != s
  {
    if s == "police" then Some(PoliceUnit)
    else if s == "medical" then Some(MedicalUnit)
    else if s == "coordinator" then Some(CoordinatorUnit)
    else if s == "administrator" then Some(AdministratorUnit)
    else None
  }

  /** Every role but the pilgrim's names a unit; the pilgrim role names none. */
  lemma UnitsAreTheNonPilgrimRoles(r: Role)
    ensures ParseUnit(RoleName(r)).Some? <==> r != Pilgrim
  {
  }

  datatype MessagePriority = Normal | Urgent

  function MessagePriorityName(p: MessagePriority): string {
    match p
    case Normal => "normal"
    case Urgent => "urgent"
  }

  function ParseMessagePriority(s: string): (r: Option<MessagePriority>)
    ensures r.Some? ==> MessagePriorityName(r.value) == s
    ensures r.None? ==> forall x: MessagePriority :: MessagePriorityName(x) != s
  {
    if s == "normal" then Some(Normal) else if s == "urgent" then Some(Urgent) else None
  }

  datatype Gender = Male | Female | Other

  datatype LostFoundStatus = Missing | Found | Closed

  // ---------------------------------------------------------------- records

  datatype GeoPoint = GeoPoint(lat: real, lng: real, address: Option<string>)

  datatype User = User(
    id: string, name: string, email: Option<string>, phone: Option<string>, role: Role,
    employeeId: Option<string>, otp: Option<int>, verified: bool, createdAt: Timestamp)

  /** `insertUserSchema`: a user without `id` and `createdAt`. */
  datatype InsertUser = InsertUser(
    name: string, email: Option<string>, phone: Option<string>, role: Role,
    employeeId: Option<string>, otp: Option<int>, verified: bool)

  function StoreUser(u: InsertUser, id: string, createdAt: Timestamp): (r: User)
    ensures r.id == id && r.createdAt == createdAt
  {
    User(id, u.name, u.email, u.phone, u.role, u.employeeId, u.otp, u.verified, createdAt)
  }

  function OmitUserKeys(u: User): InsertUser {
    InsertUser(u.name, u.email, u.phone, u.role, u.employeeId, u.otp, u.verified)
  }

  /**
   * The user's own fields as the unvalidated input carries them: the role as
   * text and `verified` possibly absent.
   */
  datatype UserInput = UserInput(
    name: string, email: Option<string>, phone: Option<string>, role: string,
    employeeId: Option<string>, otp: Option<int>, verified: Option<bool>)

  /** `insertUserSchema.parse`: the role must be one of the five, `verified` defaults to false. */
  function ParseInsertUser(i: UserInput): (r: Option<InsertUser>)
    ensures r.Some? <==> ParseRole(i.role).Some?
    ensures r.Some? ==> RoleName(r.value.role) == i.role
    ensures r.Some? ==> r.value.verified == (i.verified == Some(true))
    ensures r.Some? ==> (r.value.name == i.name && r.value.email == i.email
      && r.value.phone == i.phone && r.value.employeeId == i.employeeId && r.value.otp == i.otp)
  {
    match ParseRole(i.role)
    case None => None
    case Some(role) =>
      Some(InsertUser(i.name, i.email, i.phone, role, i.employeeId, i.otp, i.verified.GetOr(false)))
  }

  datatype Alert = Alert(
    id: string, alertType: AlertType, status: AlertStatus, priority: Priority,
    location: GeoPoint, description: string, reportedBy: string,
    assignedTo: Option<string>, timestamp: Timestamp, resolvedAt: Option<Timestamp>)

  /** `insertAlertSchema`: an alert without `id` and `timestamp`. */
  datatype InsertAlert = InsertAlert(
    alertType: AlertType, status: AlertStatus, priority: Priority, location: GeoPoint,
    description: string, reportedBy: string, assignedTo: Option<string>,
    resolvedAt: Option<Timestamp>)

  function StoreAlert(a: InsertAlert, id: string, timestamp: Timestamp): (r: Alert)
    ensures r.id == id && r.timestamp == timestamp
  {
    Alert(id, a.alertType, a.status, a.priority, a.location, a.description, a.reportedBy,
          a.assignedTo, timestamp, a.resolvedAt)
  }

  function OmitAlertKeys(a: Alert): InsertAlert {
    InsertAlert(a.alertType, a.status, a.priority, a.location, a.description, a.reportedBy,
                a.assignedTo, a.resolvedAt)
  }

  /**
   * The insert shapes lose exactly the identifier and timestamp: storing an
   * insert record and omitting those keys again gives it back, and a stored
   * record is rebuilt from its insert part, its id and its timestamp.
   */
  lemma InsertShapesOmitOnlyIdAndTimestamp(
    u: InsertUser, user: User, a: InsertAlert, alert: Alert, id: string, t: Timestamp)
    ensures OmitUserKeys(StoreUser(u, id, t)) == u
    ensures StoreUser(OmitUserKeys(user), user.id, user.createdAt) == user
    ensures OmitAlertKeys(StoreAlert(a, id, t)) == a
    ensures StoreAlert(OmitAlertKeys(alert), alert.id, alert.timestamp) == alert
  {
  }

  datatype LostFound = LostFound(
    id: string, name: string, age: Option<int>, gender: Option<Gender>, description: string,
    lastSeenLocation: GeoPoint, status: LostFoundStatus, reportedBy: Reporter,
    foundBy: Option<string>, timestamp: Timestamp, resolvedAt: Option<Timestamp>)

  datatype Reporter = Reporter(name: string, phone: string, relation: string)

  /**
   * A heatmap record. Its `crowdLevel` is a stored field of its own: nothing in
   * the shape relates it to `currentCount` and `capacity`.
   */
  datatype Heatmap = Heatmap(
    id: string, lat: real, lng: real, crowdLevel: CrowdLevel, capacity: int,
    currentCount: int, area: string, timestamp: Timestamp)

  datatype Communication = Communication(
    id: string, message: string, unit: Unit, userId: string, userName: string,
    priority: MessagePriority, timestamp: Timestamp)

  /** `insertCommunicationSchema`: a message without `id` and `timestamp`. */
  datatype InsertCommunication = InsertCommunication(
    message: string, unit: Unit, userId: string, userName: string, priority: MessagePriority)

  function StoreCommunication(m: InsertCommunication, id: string, t: Timestamp): (r: Communication)
    ensures r.id == id && r.timestamp == t
  {
    Communication(id, m.message, m.unit, m.userId, m.userName, m.priority, t)
  }

  function OmitCommunicationKeys(c: Communication): InsertCommunication {
    InsertCommunication(c.message, c.unit, c.userId, c.userName, c.priority)
  }

  lemma CommunicationInsertRoundTrip(m: InsertCommunication, c: Communication, id: string, t: Timestamp)
    ensures OmitCommunicationKeys(StoreCommunication(m, id, t)) == m
    ensures StoreCommunication(OmitCommunicationKeys(c), c.id, c.timestamp) == c
  {
  }

  /** A message as the unvalidated input carries it. */
  datatype CommunicationInput = CommunicationInput(
    message: string, unit: string, userId: string, userName: string, priority: Option<string>)

  /**
   * `insertCommunicationSchema.parse`: the unit must be one of the four units
   * (so never "pilgrim"), and an absent priority becomes "normal".
   */
  function ParseInsertCommunication(i: CommunicationInput): (r: Option<InsertCommunication>)
    ensures r.Some? <==>
      ParseUnit(i.unit).Some? && (i.priority.None? || ParseMessagePriority(i.priority.value).Some?)
    ensures r.Some? ==> UnitName(r.value.unit) == i.unit
    ensures r.Some? ==> r.value.message == i.message && r.value.userId == i.userId && r.value.userName == i.userName
    ensures r.Some? && i.priority.None? ==> r.value.priority == Normal
    ensures r.Some? && i.priority.Some? ==> MessagePriorityName(r.value.priority) == i.priority.value
    ensures i.unit == "pilgrim" ==> r.None?
  {
    match ParseUnit(i.unit)
    case None => None
    case Some(unit) =>
      match i.priority
      case None => Some(InsertCommunication(i.message, unit, i.userId, i.userName, Normal))
      case Some(p) =>
        match ParseMessagePriority(p)
        case None => None
        case Some(priority) => Some(InsertCommunication(i.message, unit, i.userId, i.userName, priority))
  }

  /** `otpVerification`: the code is text and the expiry an epoch-millisecond number. */
  datatype OtpVerification = OtpVerification(
    identifier: string, otp: string, expiresAt: int, verified: bool)

  /** `otpVerification.parse` of a record whose `verified` may be absent: it defaults to false. */
  function ParseOtpVerification(identifier: string, otp: string, expiresAt: int, verified: Option<bool>)
    : (r: OtpVerification)
    ensures r.identifier == identifier && r.otp == otp && r.expiresAt == expiresAt
    ensures r.verified <==> verified == Some(true)
  {
    OtpVerification(identifier, otp, expiresAt, verified.GetOr(false))
  }
}
