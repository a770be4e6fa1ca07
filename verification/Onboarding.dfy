/**
 * Becoming and being a driver: the application and its review, the profile an
 * approval creates, the mode switch and the online flag, with the cached
 * identity lookup between them. An upload counts here for the one row it
 * upserts; module Documents has the rest of it.
 */
module Onboarding {
  import opened Common
  import opened Documents
  import opened CacheModel
  import I = IdentityCache

  // ---------------------------------------------------------------- Tables

  type UserId = I.UserId
  type ProfileId = I.ProfileId

  datatype Mode = RiderMode | DriverMode
  datatype Status =
    | NotStarted
    | PersonalInfoSubmitted
    | LicenseSubmitted
    | VehicleSubmitted
    | UnderReview
    | Verified
    | Rejected

  datatype Vehicle = Vehicle(plateNumber: string, details: string)

  datatype Application = Application(
    userId: UserId,
    status: Status,
    personalInfo: Option<string>,
    license: Option<string>,
    vehicle: Option<Vehicle>,
    rejectionReason: Option<string>)

  datatype Profile = Profile(userId: UserId, application: AppId, isOnline: bool)

  /** A file handed in, by the type it is meant for. */
  datatype Doc = Doc(kind: DocType, mimetype: string)

  datatype State = State(
    users: map<UserId, Mode>,
    applications: map<AppId, Application>,
    applicationByUser: map<UserId, AppId>,     // unique indexes
    applicationByPlate: map<string, AppId>,
    documents: set<Slot>,                      // the rows of module Documents
    profiles: map<ProfileId, Profile>,
    profileByUser: map<UserId, ProfileId>,     // unique indexes
    profileByApplication: map<AppId, ProfileId>,
    redis: map<UserId, Raw<I.Identity>>)       // identities cached by user

  datatype Outcome = Outcome(state: State, reply: Reply)

  const REQUIRED: set<DocType> := {DriversLicense, VehicleRegistration, VehiclePhoto}
  const OPTIONAL: set<DocType> := {ProofOfInsurance, ProfilePhoto}

  function Plate(a: Application): Option<string> {
    if a.vehicle.Some? then Some(a.vehicle.value.plateNumber) else None
  }

  /** The unique indexes list exactly the rows they index. */
  ghost predicate Schema(s: State) {
    && (forall a {:trigger s.applications[a]} :: a in s.applications ==> ApplicationKeyed(s, a))
    && (forall u :: u in s.applicationByUser ==>
          s.applicationByUser[u] in s.applications && s.applications[s.applicationByUser[u]].userId == u)
    && (forall n :: n in s.applicationByPlate ==>
          s.applicationByPlate[n] in s.applications && Plate(s.applications[s.applicationByPlate[n]]) == Some(n))
    && (forall p {:trigger s.profiles[p]} :: p in s.profiles ==> ProfileKeyed(s, p))
    && (forall u :: u in s.profileByUser ==>
          s.profileByUser[u] in s.profiles && s.profiles[s.profileByUser[u]].userId == u)
    && (forall a :: a in s.profileByApplication ==>
          s.profileByApplication[a] in s.profiles && s.profiles[s.profileByApplication[a]].application == a)
  }

  predicate ApplicationKeyed(s: State, a: AppId)
    requires a in s.applications
  {
    var app := s.applications[a];
    && app.userId in s.users
    && app.userId in s.applicationByUser && s.applicationByUser[app.userId] == a
    && (Plate(app).Some? ==> Plate(app).value in s.applicationByPlate && s.applicationByPlate[Plate(app).value] == a)
  }

  predicate ProfileKeyed(s: State, p: ProfileId)
    requires p in s.profiles
  {
    var profile := s.profiles[p];
    && profile.userId in s.profileByUser && s.profileByUser[profile.userId] == p
    && profile.application in s.profileByApplication && s.profileByApplication[profile.application] == p
    && profile.application in s.applications && s.applications[profile.application].userId == profile.userId
  }

  // ---------------------------------------------------------------- Writes

  /** The application writes a call may still have to make. */
  datatype Commit =
    | Create(application: AppId, user: UserId)
    | Restart(application: AppId)
    | SavePersonalInfo(application: AppId, info: string)
    | SaveLicense(application: AppId, license: string)
    | SaveVehicle(application: AppId, vehicle: Vehicle)
    | Reject(application: AppId, reason: string)
    | Approve(application: AppId, user: UserId, profile: ProfileId)

  /** The database refuses the write: a primary key or unique index clashes. */
  predicate Refused(s: State, c: Commit) {
    match c
    case Create(a, user) => a in s.applications || user in s.applicationByUser
    case SaveVehicle(a, v) => v.plateNumber in s.applicationByPlate && s.applicationByPlate[v.plateNumber] != a
    case Approve(a, user, profile) => profile in s.profiles || user in s.profileByUser || a in s.profileByApplication
    case _ => false
  }

  /** The remembered facts that no other write can change. */
  predicate Holds(s: State, c: Commit) {
    match c
    case Create(_, user) => user in s.users
    case Approve(a, user, _) => a in s.applications && s.applications[a].userId == user
    case _ => c.application in s.applications
  }

  function SetApplication(s: State, a: AppId, app: Application): State {
    s.(applications := s.applications[a := app])
  }

  function Perform(s: State, c: Commit): State
    requires Holds(s, c)
  {
    if Refused(s, c) then s else
    match c
    case Create(a, user) =>
      SetApplication(s, a, Application(user, NotStarted, None, None, None, None))
        .(applicationByUser := s.applicationByUser[user := a])
    case Restart(a) => SetApplication(s, a, s.applications[a].(status := NotStarted, rejectionReason := None))
    case SavePersonalInfo(a, info) =>
      SetApplication(s, a, s.applications[a].(personalInfo := Some(info), status := PersonalInfoSubmitted))
    case SaveLicense(a, license) =>
      SetApplication(s, a, s.applications[a].(license := Some(license), status := LicenseSubmitted))
    case SaveVehicle(a, v) =>
      var plate := Plate(s.applications[a]);
      var others := if plate.Some? then s.applicationByPlate - {plate.value} else s.applicationByPlate;
      SetApplication(s, a, s.applications[a].(vehicle := Some(v), status := UnderReview))
        .(applicationByPlate := others[v.plateNumber := a])
    case Reject(a, reason) =>
      SetApplication(s, a, s.applications[a].(status := Rejected, rejectionReason := Some(reason)))
    case Approve(a, user, profile) =>
      SetApplication(s, a, s.applications[a].(status := Verified, rejectionReason := None))
        .(profiles := s.profiles[profile := Profile(user, a, false)],
          profileByUser := s.profileByUser[user := profile],
          profileByApplication := s.profileByApplication[a := profile])
  }

  function PutDocument(s: State, a: AppId, kind: DocType): State {
    s.(documents := s.documents + {Slot(a, kind)})
  }

  predicate Complete(s: State, a: AppId) {
    forall kind :: kind in REQUIRED ==> Slot(a, kind) in s.documents
  }

  // ---------------------------------------------------------------- Checks

  function FindByUser(s: State, user: UserId): Check<AppId> {
    if user in s.applicationByUser then Pass(s.applicationByUser[user]) else Fail(NotFound)
  }

  function LoadEditable(s: State, user: UserId): Check<AppId>
    requires Schema(s)
  {
    match FindByUser(s, user)
    case Fail(reply) => Fail(reply)
    case Pass(a) => if s.applications[a].status in {UnderReview, Verified, Rejected} then Fail(Conflict) else Pass(a)
  }

  predicate PlateAvailable(s: State, plate: string, own: AppId) {
    plate in s.applicationByPlate ==> s.applicationByPlate[plate] == own
  }

  /** The uploads of submitVehicle, in order, up to the first unsupported file. */
  function UploadAll(s: State, a: AppId, files: seq<Doc>): Outcome
    decreases |files|
  {
    if files == [] then Outcome(s, Ok)
    else if files[0].mimetype !in ALLOWED_MIME_TYPES then Outcome(s, BadRequest)
    else UploadAll(PutDocument(s, a, files[0].kind), a, files[1..])
  }

  // ------------------------------------------------------ Calls as one step

  function Write(s: State, c: Commit): Outcome
    requires Holds(s, c)
  {
    Outcome(Perform(s, c), if Refused(s, c) then UniqueViolation else Ok)
  }

  function Start(s: State, user: UserId, freshId: AppId): Outcome
    requires Schema(s)
  {
    if user !in s.users then Outcome(s, Unauthorized) else
    match FindByUser(s, user)
    case Fail(_) => Write(s, Create(freshId, user))
    case Pass(a) =>
      match s.applications[a].status
      case UnderReview => Outcome(s, Conflict)
      case Verified => Outcome(s, Conflict)
      case Rejected => Write(s, Restart(a))
      case _ => Outcome(s, Ok)
  }

  function SubmitPersonalInfo(s: State, user: UserId, info: string): Outcome
    requires Schema(s)
  {
    match LoadEditable(s, user)
    case Fail(reply) => Outcome(s, reply)
    case Pass(a) => Write(s, SavePersonalInfo(a, info))
  }

  function SubmitLicense(s: State, user: UserId, license: string, mimetype: string): Outcome
    requires Schema(s)
  {
    match LoadEditable(s, user)
    case Fail(reply) => Outcome(s, reply)
    case Pass(a) =>
      if mimetype !in ALLOWED_MIME_TYPES then Outcome(s, BadRequest)
      else Write(PutDocument(s, a, DriversLicense), SaveLicense(a, license))
  }

  function SubmitVehicle(s: State, user: UserId, vehicle: Vehicle, files: seq<Doc>): Outcome
    requires Schema(s)
  {
    match LoadEditable(s, user)
    case Fail(reply) => Outcome(s, reply)
    case Pass(a) =>
      if !PlateAvailable(s, vehicle.plateNumber, a) then Outcome(s, Conflict) else
      var uploaded := UploadAll(s, a, files);
      UploadsOnly(s, a, files);
      if uploaded.reply != Ok then uploaded
      else if !Complete(uploaded.state, a) then Outcome(uploaded.state, BadRequest)
      else Write(uploaded.state, SaveVehicle(a, vehicle))
  }

  lemma {:induction false} UploadsOnly(s: State, a: AppId, files: seq<Doc>)
    ensures var r := UploadAll(s, a, files).state;
      r == s.(documents := r.documents) && s.documents <= r.documents
    decreases |files|
  {
    if files != [] && files[0].mimetype in ALLOWED_MIME_TYPES {
      UploadsOnly(PutDocument(s, a, files[0].kind), a, files[1..]);
    }
  }

  function UploadOptional(s: State, user: UserId, doc: Doc): Outcome
    requires Schema(s)
  {
    if doc.kind !in OPTIONAL then Outcome(s, BadRequest) else
    match FindByUser(s, user)
    case Fail(reply) => Outcome(s, reply)
    case Pass(a) =>
      if doc.mimetype !in ALLOWED_MIME_TYPES then Outcome(s, BadRequest) else Outcome(PutDocument(s, a, doc.kind), Ok)
  }

  /** A verdict: a rejection with its reason, or an approval with the fresh profile id. */
  datatype Verdict = Rejection(reason: string) | Approval(profile: ProfileId)

  function Review(s: State, a: AppId, verdict: Verdict): Outcome
    requires Schema(s)
  {
    if a !in s.applications then Outcome(s, NotFound)
    else if s.applications[a].status != UnderReview then Outcome(s, Conflict)
    else match verdict
      case Rejection(reason) => Write(s, Reject(a, reason))
      case Approval(profile) => Write(s, Approve(a, s.applications[a].userId, profile))
  }

  /** findIdentityByUserId: the cached identity, or the database's, then cached. */
  function FindIdentity(s: State, user: UserId): (State, Option<I.Identity>) {
    var cached := Get(s.redis, user);
    if cached.Some? then (s, cached) else
    var found := I.Held(s.profileByUser, user);
    (s.(redis := s.redis[user := Stringify(found)]), found)
  }

  predicate CanActivate(s: State, user: UserId, required: Mode) {
    user in s.users && s.users[user] == required && (required == DriverMode ==> user in s.profileByUser)
  }

  /** driverProfile.update by unique user; it throws when there is no such row. */
  function WriteOnline(s: State, user: UserId, online: bool): Outcome
    requires Schema(s)
  {
    if user !in s.profileByUser then Outcome(s, NotFound) else
    var p := s.profileByUser[user];
    Outcome(s.(profiles := s.profiles[p := s.profiles[p].(isOnline := online)]), Ok)
  }

  function SetOnlineStatus(s: State, user: UserId, online: bool): Outcome
    requires Schema(s)
  {
    if !CanActivate(s, user, DriverMode) then Outcome(s, Forbidden) else
    var (s1, identity) := FindIdentity(s, user);
    if identity.None? then Outcome(s1, NotFound) else WriteOnline(s1, user, online)
  }

  function GoOffline(s: State, user: UserId): Outcome
    requires Schema(s)
  {
    var (s1, identity) := FindIdentity(s, user);
    if identity.None? then Outcome(s1, Ok) else WriteOnline(s1, user, false)
  }

  function SetActiveProfile(s: State, user: UserId, mode: Mode): Outcome
    requires Schema(s)
  {
    if mode == DriverMode && user !in s.profileByUser then Outcome(s, Forbidden)
    else if user !in s.users then Outcome(s, NotFound)
    else
      var s1 := s.(users := s.users[user := mode]);
      if mode == RiderMode then GoOffline(s1, user) else Outcome(s1, Ok)
  }

  // ---------------------------------------------------------- Whole system

  datatype Step =
    | DoRegister(user: UserId)
    | DoStart(user: UserId, freshId: AppId)
    | DoPersonalInfo(user: UserId, info: string)
    | DoLicense(user: UserId, license: string, mimetype: string)
    | DoVehicle(user: UserId, vehicle: Vehicle, files: seq<Doc>)
    | DoOptional(user: UserId, doc: Doc)
    | DoReview(application: AppId, verdict: Verdict)
    | DoSetActiveProfile(user: UserId, mode: Mode)
    | DoSetOnline(user: UserId, online: bool)
    | DoDisconnect(user: UserId)
    | DoEvict(user: UserId)

  /** The steps that write applications; the others switch modes and flags. */
  predicate IsCall(step: Step) {
    step.DoStart? || step.DoPersonalInfo? || step.DoLicense? || step.DoVehicle? || step.DoOptional? || step.DoReview?
  }

  function Apply(s: State, step: Step): State
    requires Schema(s)
  {
    match step
    case DoRegister(user) => if user in s.users then s else s.(users := s.users[user := RiderMode])
    case DoStart(user, freshId) => Start(s, user, freshId).state
    case DoPersonalInfo(user, info) => SubmitPersonalInfo(s, user, info).state
    case DoLicense(user, license, mimetype) => SubmitLicense(s, user, license, mimetype).state
    case DoVehicle(user, vehicle, files) => SubmitVehicle(s, user, vehicle, files).state
    case DoOptional(user, doc) => UploadOptional(s, user, doc).state
    case DoReview(a, verdict) => Review(s, a, verdict).state
    case DoSetActiveProfile(user, mode) => SetActiveProfile(s, user, mode).state
    case DoSetOnline(user, online) => SetOnlineStatus(s, user, online).state
    case DoDisconnect(user) => GoOffline(s, user).state
    case DoEvict(user) => s.(redis := s.redis - {user})
  }

  const INITIAL := State(map[], map[], map[], map[], {}, map[], map[], map[], map[])
}
