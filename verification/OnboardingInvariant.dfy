/**
 * Level A: what every run of onboarding and mode calls keeps, and exactly when
 * a single write keeps it.
 */
module OnboardingInvariant {
  import opened Common
  import opened Documents
  import opened CacheModel
  import opened Onboarding
  import I = IdentityCache

  // ------------------------------------------------------------- The chain

  /** Documents before review, and a profile exactly from the approval on. */
  predicate ApplicationOk(s: State, a: AppId)
    requires a in s.applications
  {
    && (s.applications[a].status in {UnderReview, Verified} ==> Complete(s, a))
    && (s.applications[a].status == Verified <==> a in s.profileByApplication)
  }

  predicate OnlineOk(s: State, p: ProfileId)
    requires p in s.profiles
  {
    var user := s.profiles[p].userId;
    s.profiles[p].isOnline ==> user in s.users && s.users[user] == DriverMode
  }

  predicate ModeOk(s: State, user: UserId)
    requires user in s.users
  {
    s.users[user] == DriverMode ==> user in s.profileByUser
  }

  /** A cached identity is the database's. */
  predicate CachedOk(s: State, user: UserId)
    requires user in s.redis
  {
    I.Sound(s.profileByUser, user, Parse(s.redis[user]))
  }

  ghost predicate ApplicationsOk(s: State) {
    forall a {:trigger ApplicationOk(s, a)} :: a in s.applications ==> ApplicationOk(s, a)
  }

  ghost predicate UsersOk(s: State) {
    && (forall p {:trigger OnlineOk(s, p)} :: p in s.profiles ==> OnlineOk(s, p))
    && (forall u {:trigger ModeOk(s, u)} :: u in s.users ==> ModeOk(s, u))
    && (forall u {:trigger CachedOk(s, u)} :: u in s.redis ==> CachedOk(s, u))
  }

  ghost predicate Chain(s: State) {
    Schema(s) && ApplicationsOk(s) && UsersOk(s)
  }

  // ---------------------------------------------------------- Schema kept

  /** Only the status and the fields of one application change; its plate does not. */
  lemma SameKeysKeepSchema(s: State, a: AppId, app: Application)
    requires Schema(s) && a in s.applications
    requires app.userId == s.applications[a].userId && Plate(app) == Plate(s.applications[a])
    ensures Schema(SetApplication(s, a, app))
  {
    var s' := SetApplication(s, a, app);
    forall b | b in s'.applications ensures ApplicationKeyed(s', b) { assert ApplicationKeyed(s, b); }
    forall p | p in s'.profiles ensures ProfileKeyed(s', p) { assert ProfileKeyed(s, p); }
  }

  lemma CreateKeepsSchema(s: State, a: AppId, user: UserId)
    requires Schema(s) && Holds(s, Create(a, user))
    ensures Schema(Perform(s, Create(a, user)))
  {
    var s' := Perform(s, Create(a, user));
    if !Refused(s, Create(a, user)) {
      forall b | b in s'.applications ensures ApplicationKeyed(s', b) {
        if b != a { assert ApplicationKeyed(s, b); }
      }
      forall p | p in s'.profiles ensures ProfileKeyed(s', p) { assert ProfileKeyed(s, p); }
    }
  }

  lemma VehicleKeepsPlates(s: State, a: AppId, v: Vehicle)
    requires Schema(s) && Holds(s, SaveVehicle(a, v)) && !Refused(s, SaveVehicle(a, v))
    ensures var s' := Perform(s, SaveVehicle(a, v));
      && s'.applications == s.applications[a := s.applications[a].(vehicle := Some(v), status := UnderReview)]
      && (forall b :: b in s'.applications ==> ApplicationKeyed(s', b))
      && (forall n :: n in s'.applicationByPlate ==>
            s'.applicationByPlate[n] in s'.applications && Plate(s'.applications[s'.applicationByPlate[n]]) == Some(n))
  {
    var s' := Perform(s, SaveVehicle(a, v));
    assert ApplicationKeyed(s, a);
    forall b | b in s'.applications ensures ApplicationKeyed(s', b) { assert ApplicationKeyed(s, b); }
  }

  lemma VehicleKeepsSchema(s: State, a: AppId, v: Vehicle)
    requires Schema(s) && Holds(s, SaveVehicle(a, v))
    ensures Schema(Perform(s, SaveVehicle(a, v)))
  {
    if !Refused(s, SaveVehicle(a, v)) {
      var s' := Perform(s, SaveVehicle(a, v));
      VehicleKeepsPlates(s, a, v);
      forall p | p in s'.profiles ensures ProfileKeyed(s', p) { assert ProfileKeyed(s, p); }
    }
  }

  lemma ApproveKeepsSchema(s: State, a: AppId, user: UserId, profile: ProfileId)
    requires Schema(s) && Holds(s, Approve(a, user, profile))
    ensures Schema(Perform(s, Approve(a, user, profile)))
  {
    var s' := Perform(s, Approve(a, user, profile));
    if !Refused(s, Approve(a, user, profile)) {
      forall b | b in s'.applications ensures ApplicationKeyed(s', b) { assert ApplicationKeyed(s, b); }
      forall p | p in s'.profiles ensures ProfileKeyed(s', p) {
        if p != profile { assert ProfileKeyed(s, p); }
      }
    }
  }

  lemma PerformKeepsSchema(s: State, c: Commit)
    requires Schema(s) && Holds(s, c)
    ensures Schema(Perform(s, c))
  {
    match c
    case Create(a, user) => CreateKeepsSchema(s, a, user);
    case SaveVehicle(a, v) => VehicleKeepsSchema(s, a, v);
    case Approve(a, user, profile) => ApproveKeepsSchema(s, a, user, profile);
    case _ => SameKeysKeepSchema(s, c.application, Perform(s, c).applications[c.application]);
  }

  // --------------------------------------------------- Exactly when a write

  /** The status a write sets, if it changes one. */
  function Target(c: Commit): Status {
    match c
    case Create(_, _) => NotStarted
    case Restart(_) => NotStarted
    case SavePersonalInfo(_, _) => PersonalInfoSubmitted
    case SaveLicense(_, _) => LicenseSubmitted
    case SaveVehicle(_, _) => UnderReview
    case Reject(_, _) => Rejected
    case Approve(_, _, _) => Verified
  }

  /** What a write changes: one application, and for an approval the profiles. */
  ghost predicate Wrote(s: State, s': State, c: Commit) {
    && s'.applications.Keys == s.applications.Keys + {c.application}
    && (forall b :: b in s.applications && b != c.application ==> s'.applications[b] == s.applications[b])
    && s'.applications[c.application].status == Target(c)
    && (c.application in s.applications ==>
          s'.applications[c.application].userId == s.applications[c.application].userId)
    && s'.documents == s.documents && s'.users == s.users && s'.redis == s.redis
    && s'.profiles ==
         (if c.Approve? then s.profiles[c.profile := Profile(c.user, c.application, false)] else s.profiles)
    && s'.profileByUser == (if c.Approve? then s.profileByUser[c.user := c.profile] else s.profileByUser)
    && s'.profileByApplication
       == (if c.Approve? then s.profileByApplication[c.application := c.profile] else s.profileByApplication)
  }

  lemma PerformWrote(s: State, c: Commit)
    requires Holds(s, c) && !Refused(s, c)
    ensures Wrote(s, Perform(s, c), c)
  {
  }

  /**
   * The application is in a state the write fits: the database refuses the
   * write, or it creates an application, or writes to one that is not VERIFIED,
   * and for a vehicle or an approval the required documents are there. A call
   * checks more, the status being one particular it writes from.
   */
  predicate Intact(s: State, c: Commit) {
    Refused(s, c) ||
    match c
    case Create(_, _) => true
    case SaveVehicle(a, _) => a in s.applications && s.applications[a].status != Verified && Complete(s, a)
    case Approve(a, _, _) => Complete(s, a)
    case _ => c.application in s.applications && s.applications[c.application].status != Verified
  }

  lemma WriteDecidesApplications(s: State, s': State, c: Commit)
    requires Schema(s) && ApplicationsOk(s) && Holds(s, c) && !Refused(s, c) && Wrote(s, s', c)
    ensures ApplicationsOk(s') <==> Intact(s, c)
  {
    forall b | b in s.applications && b != c.application ensures ApplicationOk(s', b) {
      assert ApplicationOk(s, b);
    }
    assert c.application in s.applications ==> ApplicationOk(s, c.application);
    assert ApplicationsOk(s') <==> ApplicationOk(s', c.application);
  }

  lemma WriteKeepsUsers(s: State, s': State, c: Commit)
    requires UsersOk(s) && Holds(s, c) && !Refused(s, c) && Wrote(s, s', c)
    ensures UsersOk(s')
  {
    forall p | p in s'.profiles ensures OnlineOk(s', p) {
      if p in s.profiles && s'.profiles[p] == s.profiles[p] { assert OnlineOk(s, p); }
    }
    forall u | u in s'.users ensures ModeOk(s', u) { assert ModeOk(s, u); }
    forall u | u in s'.redis ensures CachedOk(s', u) { assert CachedOk(s, u); }
  }

  /** Any granularity: a write keeps the chain exactly when the application is in a state the write fits. */
  lemma ChainIffIntact(s: State, c: Commit)
    requires Chain(s) && Holds(s, c)
    ensures Chain(Perform(s, c)) <==> Intact(s, c)
  {
    if !Refused(s, c) {
      PerformKeepsSchema(s, c);
      PerformWrote(s, c);
      WriteDecidesApplications(s, Perform(s, c), c);
      WriteKeepsUsers(s, Perform(s, c), c);
    }
  }

  // ---------------------------------------------------------- Single calls

  lemma DocumentsKeepSchema(s: State, documents: set<Slot>)
    requires Schema(s)
    ensures Schema(s.(documents := documents))
  {
    var s' := s.(documents := documents);
    forall b | b in s'.applications ensures ApplicationKeyed(s', b) { assert ApplicationKeyed(s, b); }
    forall p | p in s'.profiles ensures ProfileKeyed(s', p) { assert ProfileKeyed(s, p); }
  }

  lemma DocumentsKeepChain(s: State, documents: set<Slot>)
    requires Chain(s) && s.documents <= documents
    ensures Chain(s.(documents := documents))
  {
    var s' := s.(documents := documents);
    DocumentsKeepSchema(s, documents);
    forall b | b in s'.applications ensures ApplicationOk(s', b) { assert ApplicationOk(s, b); }
    forall p | p in s'.profiles ensures OnlineOk(s', p) { assert OnlineOk(s, p); }
    forall u | u in s'.users ensures ModeOk(s', u) { assert ModeOk(s, u); }
    forall u | u in s'.redis ensures CachedOk(s', u) { assert CachedOk(s, u); }
  }

  lemma StartKeepsChain(s: State, user: UserId, freshId: AppId)
    requires Chain(s)
    ensures Chain(Start(s, user, freshId).state)
  {
    if user in s.users {
      match FindByUser(s, user)
      case Fail(_) => ChainIffIntact(s, Create(freshId, user));
      case Pass(a) => if s.applications[a].status == Rejected { ChainIffIntact(s, Restart(a)); }
    }
  }

  lemma PersonalInfoKeepsChain(s: State, user: UserId, info: string)
    requires Chain(s)
    ensures Chain(SubmitPersonalInfo(s, user, info).state)
  {
    if LoadEditable(s, user).Pass? {
      ChainIffIntact(s, SavePersonalInfo(LoadEditable(s, user).value, info));
    }
  }

  lemma LicenseKeepsChain(s: State, user: UserId, license: string, mimetype: string)
    requires Chain(s)
    ensures Chain(SubmitLicense(s, user, license, mimetype).state)
  {
    if LoadEditable(s, user).Pass? && mimetype in ALLOWED_MIME_TYPES {
      var a := LoadEditable(s, user).value;
      var s1 := PutDocument(s, a, DriversLicense);
      DocumentsKeepChain(s, s1.documents);
      ChainIffIntact(s1, SaveLicense(a, license));
    }
  }

  lemma VehicleKeepsChain(s: State, user: UserId, vehicle: Vehicle, files: seq<Doc>)
    requires Chain(s)
    ensures Chain(SubmitVehicle(s, user, vehicle, files).state)
  {
    if LoadEditable(s, user).Pass? {
      var a := LoadEditable(s, user).value;
      var s1 := UploadAll(s, a, files).state;
      UploadsOnly(s, a, files);
      DocumentsKeepChain(s, s1.documents);
      if Complete(s1, a) {
        ChainIffIntact(s1, SaveVehicle(a, vehicle));
      }
    }
  }

  lemma OptionalKeepsChain(s: State, user: UserId, doc: Doc)
    requires Chain(s)
    ensures Chain(UploadOptional(s, user, doc).state)
  {
    if FindByUser(s, user).Pass? {
      DocumentsKeepChain(s, PutDocument(s, FindByUser(s, user).value, doc.kind).documents);
    }
  }

  lemma ReviewKeepsChain(s: State, a: AppId, verdict: Verdict)
    requires Chain(s)
    ensures Chain(Review(s, a, verdict).state)
  {
    if a in s.applications && s.applications[a].status == UnderReview {
      assert ApplicationOk(s, a);
      match verdict
      case Rejection(reason) => ChainIffIntact(s, Reject(a, reason));
      case Approval(profile) => ChainIffIntact(s, Approve(a, s.applications[a].userId, profile));
    }
  }

  // ------------------------------------------------ Modes and online flags

  /** Only modes, online flags and cached identities may differ, on the same users and profiles. */
  ghost predicate OnlyFlags(s: State, s': State) {
    && s' == s.(users := s'.users, profiles := s'.profiles, redis := s'.redis)
    && s.users.Keys <= s'.users.Keys && s'.profiles.Keys == s.profiles.Keys
    && forall p :: p in s.profiles ==> s'.profiles[p] == s.profiles[p].(isOnline := s'.profiles[p].isOnline)
  }

  lemma FlagsKeepSchema(s: State, s': State)
    requires Schema(s) && OnlyFlags(s, s')
    ensures Schema(s')
    ensures ApplicationsOk(s) ==> ApplicationsOk(s')
  {
    forall a | a in s'.applications ensures ApplicationKeyed(s', a) { assert ApplicationKeyed(s, a); }
    forall p | p in s'.profiles ensures ProfileKeyed(s', p) { assert ProfileKeyed(s, p); }
    if ApplicationsOk(s) {
      forall a | a in s'.applications ensures ApplicationOk(s', a) { assert ApplicationOk(s, a); }
    }
  }

  lemma OnlineOnlyFlag(s: State, user: UserId, online: bool)
    requires Schema(s)
    ensures OnlyFlags(s, WriteOnline(s, user, online).state)
  {
  }

  lemma LookupOnlyFlag(s: State, user: UserId)
    requires Schema(s)
    ensures OnlyFlags(s, FindIdentity(s, user).0) && Schema(FindIdentity(s, user).0)
  {
    FlagsKeepSchema(s, FindIdentity(s, user).0);
  }

  lemma OfflineOnlyFlag(s: State, user: UserId)
    requires Schema(s)
    ensures OnlyFlags(s, GoOffline(s, user).state)
  {
    LookupOnlyFlag(s, user);
    OnlineOnlyFlag(FindIdentity(s, user).0, user, false);
  }

  lemma SwitchOnlyFlag(s: State, user: UserId, mode: Mode)
    requires Schema(s)
    ensures OnlyFlags(s, SetActiveProfile(s, user, mode).state)
  {
    if user in s.users {
      var s1 := s.(users := s.users[user := mode]);
      FlagsKeepSchema(s, s1);
      OfflineOnlyFlag(s1, user);
    }
  }

  /** Mode switches, online flags, sign-ups and evictions leave every application alone. */
  lemma ModeStepsOnlyFlag(s: State, step: Step)
    requires Schema(s) && !IsCall(step)
    ensures OnlyFlags(s, Apply(s, step))
  {
    match step
    case DoSetActiveProfile(user, mode) => SwitchOnlyFlag(s, user, mode);
    case DoSetOnline(user, online) =>
      LookupOnlyFlag(s, user);
      OnlineOnlyFlag(FindIdentity(s, user).0, user, online);
    case DoDisconnect(user) => OfflineOnlyFlag(s, user);
    case _ =>
  }

  ghost predicate RedisOk(s: State) {
    forall u {:trigger CachedOk(s, u)} :: u in s.redis ==> CachedOk(s, u)
  }

  /** A sound cache never hides a profile, nor makes one up. */
  lemma LookupIsExact(s: State, user: UserId)
    requires Schema(s) && RedisOk(s)
    ensures FindIdentity(s, user).1 == I.Held(s.profileByUser, user)
    ensures OnlyFlags(s, FindIdentity(s, user).0)
    ensures FindIdentity(s, user).0 == s.(redis := FindIdentity(s, user).0.redis)
    ensures RedisOk(FindIdentity(s, user).0)
  {
    var s1 := FindIdentity(s, user).0;
    assert user in s.redis ==> CachedOk(s, user);
    forall u | u in s1.redis ensures CachedOk(s1, u) {
      if u in s.redis { assert CachedOk(s, u); }
    }
  }

  /** goOffline leaves the user's profile, if there is one, off line, and touches no other. */
  lemma GoOfflineWorks(s: State, user: UserId)
    requires Schema(s) && RedisOk(s)
    ensures var r := GoOffline(s, user);
      && r.reply == Ok && OnlyFlags(s, r.state) && r.state.users == s.users && RedisOk(r.state)
      && forall p :: p in s.profiles ==>
           var row := s.profiles[p]; r.state.profiles[p] == if row.userId == user then row.(isOnline := false) else row
  {
    LookupIsExact(s, user);
    FlagsKeepSchema(s, FindIdentity(s, user).0);
    var s1 := FindIdentity(s, user).0;
    forall p | p in s.profiles
      ensures s.profiles[p].userId == user <==> user in s.profileByUser && s.profileByUser[user] == p
    {
      assert ProfileKeyed(s, p);
    }
    var r := GoOffline(s, user);
    forall u | u in r.state.redis ensures CachedOk(r.state, u) { assert CachedOk(s1, u); }
  }

  lemma OfflineKeepsChain(s: State, user: UserId)
    requires Chain(s)
    ensures Chain(GoOffline(s, user).state)
  {
    GoOfflineWorks(s, user);
    var s' := GoOffline(s, user).state;
    FlagsKeepSchema(s, s');
    forall p | p in s'.profiles ensures OnlineOk(s', p) { assert OnlineOk(s, p); }
    forall u | u in s'.users ensures ModeOk(s', u) { assert ModeOk(s, u); }
  }

  /** Switching to rider mode takes the driver off line; to driver mode, it takes a profile. */
  lemma ModeKeepsChain(s: State, user: UserId, mode: Mode)
    requires Chain(s)
    ensures Chain(SetActiveProfile(s, user, mode).state)
    ensures SetActiveProfile(s, user, mode).reply == Ok <==>
      user in s.users && (mode == DriverMode ==> user in s.profileByUser)
  {
    if user in s.users && (mode == DriverMode ==> user in s.profileByUser) {
      var s1 := s.(users := s.users[user := mode]);
      var s' := SetActiveProfile(s, user, mode).state;
      FlagsKeepSchema(s, s1);
      forall u | u in s1.redis ensures CachedOk(s1, u) { assert CachedOk(s, u); }
      if mode == RiderMode {
        GoOfflineWorks(s1, user);
        FlagsKeepSchema(s1, s');
      }
      forall p | p in s'.profiles ensures OnlineOk(s', p) { assert OnlineOk(s, p); }
      forall u | u in s'.users ensures ModeOk(s', u) { assert ModeOk(s, u); }
    }
  }

  /** Behind its guard the online switch always finds the profile. */
  lemma OnlineKeepsChain(s: State, user: UserId, online: bool)
    requires Chain(s)
    ensures Chain(SetOnlineStatus(s, user, online).state)
    ensures SetOnlineStatus(s, user, online).reply == if CanActivate(s, user, DriverMode) then Ok else Forbidden
    ensures SetOnlineStatus(s, user, online).reply == Ok ==>
      SetOnlineStatus(s, user, online).state.profiles
      == s.profiles[s.profileByUser[user] := s.profiles[s.profileByUser[user]].(isOnline := online)]
  {
    if CanActivate(s, user, DriverMode) {
      var s' := SetOnlineStatus(s, user, online).state;
      LookupIsExact(s, user);
      FlagsKeepSchema(s, FindIdentity(s, user).0);
      FlagsKeepSchema(s, s');
      forall p | p in s'.profiles ensures OnlineOk(s', p) { assert OnlineOk(s, p); }
      forall u | u in s'.users ensures ModeOk(s', u) { assert ModeOk(s, u); }
      forall u | u in s'.redis ensures CachedOk(s', u) { assert CachedOk(FindIdentity(s, user).0, u); }
    }
  }

  lemma RegisterKeepsUsers(s: State, user: UserId)
    requires Schema(s) && UsersOk(s)
    ensures UsersOk(Apply(s, DoRegister(user)))
  {
    var s' := Apply(s, DoRegister(user));
    if user !in s.users {
      forall p | p in s'.profiles ensures OnlineOk(s', p) { assert OnlineOk(s, p); }
      forall u | u in s'.users ensures ModeOk(s', u) { if u in s.users { assert ModeOk(s, u); } }
      forall u | u in s'.redis ensures CachedOk(s', u) { assert CachedOk(s, u); }
    }
  }

  lemma RegisterKeepsChain(s: State, user: UserId)
    requires Chain(s)
    ensures Chain(Apply(s, DoRegister(user)))
  {
    FlagsKeepSchema(s, Apply(s, DoRegister(user)));
    RegisterKeepsUsers(s, user);
  }

  lemma EvictKeepsChain(s: State, user: UserId)
    requires Chain(s)
    ensures Chain(Apply(s, DoEvict(user)))
  {
    var s' := Apply(s, DoEvict(user));
    FlagsKeepSchema(s, s');
    forall p | p in s'.profiles ensures OnlineOk(s', p) { assert OnlineOk(s, p); }
    forall u | u in s'.users ensures ModeOk(s', u) { assert ModeOk(s, u); }
    forall u | u in s'.redis ensures CachedOk(s', u) {
      assert CachedOk(s, u) && s'.redis[u] == s.redis[u];
    }
  }

  lemma ApplyKeepsChain(s: State, step: Step)
    requires Chain(s)
    ensures Chain(Apply(s, step))
  {
    match step
    case DoRegister(user) => RegisterKeepsChain(s, user);
    case DoStart(user, freshId) => StartKeepsChain(s, user, freshId);
    case DoPersonalInfo(user, info) => PersonalInfoKeepsChain(s, user, info);
    case DoLicense(user, license, mimetype) => LicenseKeepsChain(s, user, license, mimetype);
    case DoVehicle(user, vehicle, files) => VehicleKeepsChain(s, user, vehicle, files);
    case DoOptional(user, doc) => OptionalKeepsChain(s, user, doc);
    case DoReview(a, verdict) => ReviewKeepsChain(s, a, verdict);
    case DoSetActiveProfile(user, mode) => ModeKeepsChain(s, user, mode);
    case DoSetOnline(user, online) => OnlineKeepsChain(s, user, online);
    case DoDisconnect(user) => OfflineKeepsChain(s, user);
    case DoEvict(user) => EvictKeepsChain(s, user);
  }

  // ------------------------------------------------------------------ Runs

  ghost function Run(s: State, steps: seq<Step>): (r: State)
    requires Chain(s)
    ensures Chain(r)
    decreases |steps|
  {
    if steps == [] then s else
    ApplyKeepsChain(s, steps[0]);
    Run(Apply(s, steps[0]), steps[1..])
  }

  predicate IsOnline(s: State, user: UserId) {
    exists p :: p in s.profiles && s.profiles[p].userId == user && s.profiles[p].isOnline
  }

  predicate IsVerified(s: State, user: UserId) {
    user in s.applicationByUser && s.applicationByUser[user] in s.applications
    && s.applications[s.applicationByUser[user]].status == Verified
  }

  /**
   * Level A, every run from the empty system: on line, so in driver mode, so
   * with a profile, which is so exactly while the user's application is
   * VERIFIED, which takes a licence, a vehicle registration and a vehicle photo.
   */
  lemma {:induction false} AuthorityChain(steps: seq<Step>, user: UserId)
    ensures var s := Run(INITIAL, steps);
      && (IsOnline(s, user) ==> user in s.users && s.users[user] == DriverMode)
      && (user in s.users && s.users[user] == DriverMode ==> user in s.profileByUser)
      && (user in s.profileByUser <==> IsVerified(s, user))
      && (IsVerified(s, user) ==> var a := s.applicationByUser[user];
            && Slot(a, DriversLicense) in s.documents
            && Slot(a, VehicleRegistration) in s.documents
            && Slot(a, VehiclePhoto) in s.documents)
  {
    var s := Run(INITIAL, steps);
    if IsOnline(s, user) {
      var p :| p in s.profiles && s.profiles[p].userId == user && s.profiles[p].isOnline;
      assert OnlineOk(s, p);
    }
    if user in s.users { assert ModeOk(s, user); }
    if user in s.applicationByUser {
      var a := s.applicationByUser[user];
      assert ApplicationOk(s, a);
      if a in s.profileByApplication { assert ProfileKeyed(s, s.profileByApplication[a]); }
    }
    if user in s.profileByUser { ProfileMeansVerified(s, user); }
  }

  // -------------------------------------------------------------- Statuses

  predicate LegalMove(before: Status, after: Status) {
    match before
    case Verified => false
    case UnderReview => after == Verified || after == Rejected
    case Rejected => after == NotStarted
    case _ => after in {PersonalInfoSubmitted, LicenseSubmitted, UnderReview}
  }

  /** An application stays, keeps its owner, and moves by the rules if at all. */
  ghost predicate MovesWell(s: State, s': State) {
    forall a :: a in s.applications ==>
      && a in s'.applications && s'.applications[a].userId == s.applications[a].userId
      && (s'.applications[a].status == s.applications[a].status
          || LegalMove(s.applications[a].status, s'.applications[a].status))
  }

  lemma PerformMovesWell(s: State, c: Commit)
    requires Holds(s, c)
    requires !c.Create? && !Refused(s, c) ==>
      s.applications[c.application].status == Target(c) || LegalMove(s.applications[c.application].status, Target(c))
    ensures MovesWell(s, Perform(s, c))
  {
    if !Refused(s, c) {
      PerformWrote(s, c);
      WriteMovesWell(s, Perform(s, c), c);
    }
  }

  lemma WriteMovesWell(s: State, s': State, c: Commit)
    requires Wrote(s, s', c)
    requires c.application in s.applications ==>
      s.applications[c.application].status == Target(c) || LegalMove(s.applications[c.application].status, Target(c))
    ensures MovesWell(s, s')
  {
  }

  /** Level A. Every step moves applications by the rules: only out of review, only back through a restart. */
  lemma ApplyMovesWell(s: State, step: Step)
    requires Schema(s)
    ensures MovesWell(s, Apply(s, step))
  {
    if IsCall(step) {
      CallIsAWrite(s, step);
      if WriteOf(s, step).Some? {
        PerformMovesWell(AfterUploads(s, step), WriteOf(s, step).value);
      }
    } else {
      ModeStepsOnlyFlag(s, step);
    }
  }

  /** The state after a call's uploads. */
  function AfterUploads(s: State, step: Step): State
    requires Schema(s)
  {
    match step
    case DoLicense(user, _, mimetype) =>
      if LoadEditable(s, user).Pass? && mimetype in ALLOWED_MIME_TYPES
      then PutDocument(s, LoadEditable(s, user).value, DriversLicense) else s
    case DoVehicle(user, vehicle, files) =>
      if LoadEditable(s, user).Pass? && PlateAvailable(s, vehicle.plateNumber, LoadEditable(s, user).value)
      then UploadAll(s, LoadEditable(s, user).value, files).state else s
    case DoOptional(user, doc) =>
      if doc.kind in OPTIONAL && FindByUser(s, user).Pass? && doc.mimetype in ALLOWED_MIME_TYPES
      then PutDocument(s, FindByUser(s, user).value, doc.kind) else s
    case _ => s
  }

  /** The write a call reaches, if it reaches one. */
  function WriteOf(s: State, step: Step): Option<Commit>
    requires Schema(s)
  {
    match step
    case DoStart(user, freshId) =>
      if user !in s.users then None
      else if user !in s.applicationByUser then Some(Create(freshId, user))
      else if s.applications[s.applicationByUser[user]].status == Rejected then Some(Restart(s.applicationByUser[user]))
      else None
    case DoPersonalInfo(user, info) =>
      if LoadEditable(s, user).Pass? then Some(SavePersonalInfo(LoadEditable(s, user).value, info)) else None
    case DoLicense(user, license, mimetype) =>
      if LoadEditable(s, user).Pass? && mimetype in ALLOWED_MIME_TYPES
      then Some(SaveLicense(LoadEditable(s, user).value, license)) else None
    case DoVehicle(user, vehicle, files) =>
      if SubmitVehicle(s, user, vehicle, files).reply in {Ok, UniqueViolation}
      then Some(SaveVehicle(LoadEditable(s, user).value, vehicle)) else None
    case DoReview(a, verdict) =>
      if a !in s.applications || s.applications[a].status != UnderReview then None
      else Some(match verdict
                case Rejection(reason) => Reject(a, reason)
                case Approval(profile) => Approve(a, s.applications[a].userId, profile))
    case _ => None
  }

  lemma VehicleIsAWrite(s: State, user: UserId, vehicle: Vehicle, files: seq<Doc>)
    requires Schema(s)
    ensures var step := DoVehicle(user, vehicle, files);
      && AfterUploads(s, step) == s.(documents := AfterUploads(s, step).documents)
      && (WriteOf(s, step).Some? ==> Holds(AfterUploads(s, step), WriteOf(s, step).value))
      && SubmitVehicle(s, user, vehicle, files).state
         == if WriteOf(s, step).Some? then Perform(AfterUploads(s, step), WriteOf(s, step).value)
            else AfterUploads(s, step)
  {
    if LoadEditable(s, user).Pass? {
      UploadsOnly(s, LoadEditable(s, user).value, files);
      UploadReplies(s, LoadEditable(s, user).value, files);
    }
  }

  /** A call is its uploads and at most one write. */
  lemma CallIsAWrite(s: State, step: Step)
    requires Schema(s) && IsCall(step)
    ensures AfterUploads(s, step) == s.(documents := AfterUploads(s, step).documents)
    ensures WriteOf(s, step).Some? ==> Holds(AfterUploads(s, step), WriteOf(s, step).value)
    ensures Apply(s, step) ==
      if WriteOf(s, step).Some? then Perform(AfterUploads(s, step), WriteOf(s, step).value) else AfterUploads(s, step)
  {
    match step
    case DoVehicle(user, vehicle, files) => VehicleIsAWrite(s, user, vehicle, files);
    case DoReview(a, verdict) =>
    case _ =>
  }

  /** Level A. VERIFIED is for good, and so is the profile it came with. */
  lemma {:induction false} VerifiedIsFinal(s: State, steps: seq<Step>, user: UserId)
    requires Chain(s) && IsVerified(s, user)
    ensures IsVerified(Run(s, steps), user) && user in Run(s, steps).profileByUser
    ensures user in s.profileByUser && Run(s, steps).profileByUser[user] == s.profileByUser[user]
    decreases |steps|
  {
    VerifiedHasProfile(s, user);
    if steps != [] {
      ApplyKeepsChain(s, steps[0]);
      ApplyKeepsVerified(s, steps[0], user);
      VerifiedIsFinal(Apply(s, steps[0]), steps[1..], user);
    }
  }

  lemma VerifiedHasProfile(s: State, user: UserId)
    requires Chain(s) && IsVerified(s, user)
    ensures user in s.profileByUser
  {
    var a := s.applicationByUser[user];
    assert ApplicationOk(s, a);
    assert ProfileKeyed(s, s.profileByApplication[a]);
  }

  lemma ApplyKeepsVerified(s: State, step: Step, user: UserId)
    requires Schema(s) && IsVerified(s, user)
    ensures IsVerified(Apply(s, step), user)
    ensures user in s.profileByUser ==>
      user in Apply(s, step).profileByUser && Apply(s, step).profileByUser[user] == s.profileByUser[user]
  {
    if IsCall(step) {
      CallIsAWrite(s, step);
      if WriteOf(s, step).Some? {
        WritesSpareVerified(s, step);
        PerformKeepsVerified(AfterUploads(s, step), WriteOf(s, step).value, user);
      }
    } else {
      ModeStepsOnlyFlag(s, step);
    }
  }

  lemma WritesSpareVerified(s: State, step: Step)
    requires Schema(s) && IsCall(step) && WriteOf(s, step).Some?
    ensures var c := WriteOf(s, step).value;
      c.Create? || (c.application in s.applications && s.applications[c.application].status != Verified)
  {
  }

  lemma PerformKeepsVerified(s: State, c: Commit, user: UserId)
    requires Holds(s, c) && IsVerified(s, user)
    requires c.Create? || (c.application in s.applications && s.applications[c.application].status != Verified)
    ensures IsVerified(Perform(s, c), user)
    ensures user in s.profileByUser ==>
      user in Perform(s, c).profileByUser && Perform(s, c).profileByUser[user] == s.profileByUser[user]
  {
  }

  /** Level A. With a fresh profile id a verdict succeeds exactly on an application under review, and never twice. */
  lemma ReviewSucceedsIff(s: State, a: AppId, verdict: Verdict, again: Verdict)
    requires Chain(s) && (verdict.Approval? ==> verdict.profile !in s.profiles)
    ensures Review(s, a, verdict).reply == Ok <==> a in s.applications && s.applications[a].status == UnderReview
    ensures Review(s, a, verdict).reply != Ok ==> Review(s, a, verdict).state == s
    ensures Chain(Review(s, a, verdict).state)
    ensures Review(s, a, verdict).reply == Ok ==> Review(Review(s, a, verdict).state, a, again).reply == Conflict
  {
    ReviewKeepsChain(s, a, verdict);
    if a in s.applications && s.applications[a].status == UnderReview {
      NoProfileYet(s, a);
    }
  }

  lemma ProfileMeansVerified(s: State, user: UserId)
    requires Chain(s) && user in s.profileByUser
    ensures IsVerified(s, user)
  {
    var p := s.profileByUser[user];
    assert ProfileKeyed(s, p);
    assert ApplicationKeyed(s, s.profiles[p].application);
    assert ApplicationOk(s, s.profiles[p].application);
  }

  lemma NoProfileYet(s: State, a: AppId)
    requires Chain(s) && a in s.applications && s.applications[a].status != Verified
    ensures a !in s.profileByApplication && s.applications[a].userId !in s.profileByUser
  {
    var user := s.applications[a].userId;
    assert ApplicationOk(s, a) && ApplicationKeyed(s, a);
    if user in s.profileByUser { ProfileMeansVerified(s, user); }
  }

  // ---------------------------------------------------------------- Plates

  /** Level A. No two applications ever hold the same plate. */
  lemma {:induction false} PlatesAreUnique(steps: seq<Step>, a: AppId, b: AppId)
    requires a in Run(INITIAL, steps).applications && b in Run(INITIAL, steps).applications
    requires Plate(Run(INITIAL, steps).applications[a]).Some?
    requires Plate(Run(INITIAL, steps).applications[a]) == Plate(Run(INITIAL, steps).applications[b])
    ensures a == b
  {
    assert ApplicationKeyed(Run(INITIAL, steps), a) && ApplicationKeyed(Run(INITIAL, steps), b);
  }

  /**
   * Level A. The unique index never speaks: a taken plate is refused with a
   * conflict before any upload, and no other submission is refused for its plate.
   */
  lemma PlateCheckSuffices(s: State, user: UserId, vehicle: Vehicle, files: seq<Doc>)
    requires Schema(s)
    ensures var r := SubmitVehicle(s, user, vehicle, files);
      && r.reply != UniqueViolation
      && (LoadEditable(s, user).Pass? && (exists b :: b in s.applications && b != LoadEditable(s, user).value
                                                      && Plate(s.applications[b]) == Some(vehicle.plateNumber))
          ==> r.reply == Conflict && r.state == s)
      && (r.reply == Conflict ==> r.state == s)
      && (r.reply == Ok ==>
            && user in r.state.applicationByUser && r.state.applicationByUser[user] in r.state.applications
            && Plate(r.state.applications[r.state.applicationByUser[user]]) == Some(vehicle.plateNumber))
  {
    if LoadEditable(s, user).Pass? {
      UploadsOnly(s, LoadEditable(s, user).value, files);
      UploadReplies(s, LoadEditable(s, user).value, files);
      forall b | b in s.applications && Plate(s.applications[b]) == Some(vehicle.plateNumber)
        ensures vehicle.plateNumber in s.applicationByPlate && s.applicationByPlate[vehicle.plateNumber] == b
      {
        assert ApplicationKeyed(s, b);
      }
    }
  }

  /** All files land when all are allowed; otherwise those before the first that is not. */
  lemma {:induction false} UploadReplies(s: State, a: AppId, files: seq<Doc>)
    ensures var r := UploadAll(s, a, files);
      && r.reply == (if forall f :: f in files ==> IsSupported(f.mimetype) then Ok else BadRequest)
      && r.state.documents <= s.documents + (set f | f in files :: Slot(a, f.kind))
      && (r.reply == Ok ==> r.state.documents == s.documents + (set f | f in files :: Slot(a, f.kind)))
    decreases |files|
  {
    if files != [] {
      assert files == [files[0]] + files[1..];
      if files[0].mimetype in ALLOWED_MIME_TYPES {
        UploadReplies(PutDocument(s, a, files[0].kind), a, files[1..]);
        assert (set f | f in files :: Slot(a, f.kind)) ==
               {Slot(a, files[0].kind)} + (set f | f in files[1..] :: Slot(a, f.kind));
      }
    }
  }

  // ------------------------------------------------- Personal information

  /** Every application under review has its personal information. */
  ghost predicate Informed(s: State) {
    forall a {:trigger s.applications[a]} :: a in s.applications && s.applications[a].status == UnderReview ==>
      s.applications[a].personalInfo.Some?
  }

  /** A vehicle submission that will succeed, of an application that has none. */
  ghost predicate SubmitsBare(s: State, step: Step) {
    && step.DoVehicle?
    && exists a :: VehicleFits(s, a, step.user, step.vehicle, step.files) && s.applications[a].personalInfo.None?
  }

  predicate Owns(s: State, a: AppId, user: UserId) {
    a in s.applications && s.applications[a].userId == user
  }

  /** The statuses in which an application takes the submissions of its steps. */
  predicate IsEditable(status: Status) {
    status == NotStarted || status == PersonalInfoSubmitted || status == LicenseSubmitted || status == VehicleSubmitted
  }

  /** No other application holds the plate. */
  ghost predicate IsFree(s: State, plate: string, a: AppId) {
    forall b :: b in s.applications && b != a ==> Plate(s.applications[b]) != Some(plate)
  }

  /** The document is stored, or among the files. */
  predicate HasDocument(s: State, a: AppId, kind: DocType, files: seq<Doc>) {
    Slot(a, kind) in s.documents || exists f :: f in files && f.kind == kind
  }

  /** All that submitVehicle asks for, of the application it is for. */
  ghost predicate VehicleFits(s: State, a: AppId, user: UserId, vehicle: Vehicle, files: seq<Doc>) {
    && Owns(s, a, user) && IsEditable(s.applications[a].status) && IsFree(s, vehicle.plateNumber, a)
    && (forall f :: f in files ==> IsSupported(f.mimetype))
    && HasDocument(s, a, DriversLicense, files)
    && HasDocument(s, a, VehicleRegistration, files)
    && HasDocument(s, a, VehiclePhoto, files)
  }

  lemma OwnIsIndexed(s: State, a: AppId, user: UserId)
    requires Schema(s)
    ensures Owns(s, a, user) <==> user in s.applicationByUser && s.applicationByUser[user] == a
  {
    if Owns(s, a, user) { assert ApplicationKeyed(s, a); }
  }

  lemma EditableIff(s: State, a: AppId, user: UserId)
    requires Schema(s)
    ensures Owns(s, a, user) && IsEditable(s.applications[a].status) <==> LoadEditable(s, user) == Pass(a)
  {
    OwnIsIndexed(s, a, user);
  }

  lemma FreeIffAvailable(s: State, plate: string, a: AppId)
    requires Schema(s)
    ensures IsFree(s, plate, a) <==> PlateAvailable(s, plate, a)
  {
    forall b | b in s.applications && Plate(s.applications[b]) == Some(plate)
      ensures plate in s.applicationByPlate && s.applicationByPlate[plate] == b
    {
      assert ApplicationKeyed(s, b);
    }
  }

  /** A vehicle submission succeeds exactly when it fits an application of the user; else no application changes. */
  lemma VehicleSucceedsIff(s: State, user: UserId, vehicle: Vehicle, files: seq<Doc>)
    requires Schema(s)
    ensures SubmitVehicle(s, user, vehicle, files).reply == Ok <==> exists a :: VehicleFits(s, a, user, vehicle, files)
    ensures SubmitVehicle(s, user, vehicle, files).reply != Ok ==>
      SubmitVehicle(s, user, vehicle, files).state.applications == s.applications
  {
    VehicleChecks(s, user, vehicle, files);
    forall a: AppId ensures VehicleFits(s, a, user, vehicle, files) <==>
      LoadEditable(s, user) == Pass(a) && SubmitVehicle(s, user, vehicle, files).reply == Ok
    {
      VehicleFitsIff(s, a, user, vehicle, files);
    }
    if SubmitVehicle(s, user, vehicle, files).reply == Ok {
      assert VehicleFits(s, LoadEditable(s, user).value, user, vehicle, files);
    }
  }

  lemma VehicleFitsIff(s: State, a: AppId, user: UserId, vehicle: Vehicle, files: seq<Doc>)
    requires Schema(s)
    ensures VehicleFits(s, a, user, vehicle, files) <==>
      LoadEditable(s, user) == Pass(a) && SubmitVehicle(s, user, vehicle, files).reply == Ok
  {
    VehicleChecks(s, user, vehicle, files);
    EditableIff(s, a, user);
    FreeIffAvailable(s, vehicle.plateNumber, a);
    SupportedIff(files);
    RequiredIff(s, a, files);
  }

  lemma SupportedIff(files: seq<Doc>)
    ensures (forall f :: f in files ==> IsSupported(f.mimetype)) <==>
      forall f :: f in files ==> f.mimetype in ALLOWED_MIME_TYPES
  {
  }

  lemma RequiredIff(s: State, a: AppId, files: seq<Doc>)
    ensures (forall kind :: kind in REQUIRED ==> HasDocument(s, a, kind, files)) <==>
      && HasDocument(s, a, DriversLicense, files)
      && HasDocument(s, a, VehicleRegistration, files)
      && HasDocument(s, a, VehiclePhoto, files)
  {
  }

  lemma VehicleChecks(s: State, user: UserId, vehicle: Vehicle, files: seq<Doc>)
    requires Schema(s)
    ensures SubmitVehicle(s, user, vehicle, files).reply == Ok <==>
      && LoadEditable(s, user).Pass?
      && var a := LoadEditable(s, user).value;
        && PlateAvailable(s, vehicle.plateNumber, a)
        && (forall f :: f in files ==> f.mimetype in ALLOWED_MIME_TYPES)
        && (forall kind :: kind in REQUIRED ==> HasDocument(s, a, kind, files))
    ensures SubmitVehicle(s, user, vehicle, files).reply != Ok ==>
      SubmitVehicle(s, user, vehicle, files).state.applications == s.applications
  {
    if LoadEditable(s, user).Pass? {
      var a := LoadEditable(s, user).value;
      UploadsOnly(s, a, files);
      UploadReplies(s, a, files);
    }
  }

  /** Only a vehicle submission puts an application under review, and only the info step touches the info. */
  lemma OthersKeepInformed(s: State, step: Step)
    requires Schema(s) && Informed(s) && !step.DoVehicle?
    ensures Informed(Apply(s, step))
  {
    if IsCall(step) {
      CallIsAWrite(s, step);
      if WriteOf(s, step).Some? { WriteKeepsInformed(AfterUploads(s, step), WriteOf(s, step).value); }
    } else {
      ModeStepsOnlyFlag(s, step);
    }
  }

  lemma WriteKeepsInformed(s: State, c: Commit)
    requires Holds(s, c) && Informed(s) && !c.SaveVehicle?
    ensures Informed(Perform(s, c))
  {
  }

  lemma VehicleKeepsInformedIff(s: State, user: UserId, vehicle: Vehicle, files: seq<Doc>)
    requires Schema(s) && Informed(s)
    ensures Informed(SubmitVehicle(s, user, vehicle, files).state) <==> !SubmitsBare(s, DoVehicle(user, vehicle, files))
  {
    VehicleSucceedsIff(s, user, vehicle, files);
    var s' := SubmitVehicle(s, user, vehicle, files).state;
    if SubmitVehicle(s, user, vehicle, files).reply == Ok {
      var a := LoadEditable(s, user).value;
      VehicleFitsIff(s, a, user, vehicle, files);
      forall b | VehicleFits(s, b, user, vehicle, files) ensures b == a {
        VehicleFitsIff(s, b, user, vehicle, files);
      }
      UploadsOnly(s, a, files);
      OneDecidesInformed(s, s', a, s.applications[a].(vehicle := Some(vehicle), status := UnderReview));
    } else {
      assert s'.applications == s.applications;
      assert Informed(s');
    }
  }

  lemma OneDecidesInformed(s: State, s': State, a: AppId, app: Application)
    requires Informed(s) && s'.applications == s.applications[a := app] && app.status == UnderReview
    ensures Informed(s') <==> app.personalInfo.Some?
  {
    assert s'.applications[a] == app;
  }

  /** Level A. A step keeps personal information present under review unless it is a bare submission. */
  lemma InformedIff(s: State, step: Step)
    requires Schema(s) && Informed(s)
    ensures Informed(Apply(s, step)) <==> !SubmitsBare(s, step)
  {
    match step
    case DoVehicle(user, vehicle, files) => VehicleKeepsInformedIff(s, user, vehicle, files);
    case _ => OthersKeepInformed(s, step);
  }

  /** Personal information is present under review in every state of the run. */
  ghost predicate AlwaysInformed(s: State, steps: seq<Step>)
    requires Chain(s)
    decreases |steps|
  {
    if steps == [] then Informed(s) else
    ApplyKeepsChain(s, steps[0]);
    Informed(s) && AlwaysInformed(Apply(s, steps[0]), steps[1..])
  }

  /** No step of the run is a bare submission. */
  ghost predicate NeverBare(s: State, steps: seq<Step>)
    requires Chain(s)
    decreases |steps|
  {
    if steps == [] then true else
    ApplyKeepsChain(s, steps[0]);
    !SubmitsBare(s, steps[0]) && NeverBare(Apply(s, steps[0]), steps[1..])
  }

  /** Level A, every run: under review implies personal information throughout exactly when no submission is bare. */
  lemma {:induction false} AlwaysInformedIff(s: State, steps: seq<Step>)
    requires Chain(s) && Informed(s)
    ensures AlwaysInformed(s, steps) <==> NeverBare(s, steps)
    decreases |steps|
  {
    if steps != [] {
      ApplyKeepsChain(s, steps[0]);
      InformedIff(s, steps[0]);
      if !SubmitsBare(s, steps[0]) {
        AlwaysInformedIff(Apply(s, steps[0]), steps[1..]);
      }
    }
  }

  // ------------------------------------------------------ What is not kept

  lemma {:induction false} RunAppend(s: State, steps: seq<Step>, step: Step)
    requires Chain(s)
    ensures Chain(Run(s, steps))
    ensures Run(s, steps + [step]) == Apply(Run(s, steps), step)
    decreases |steps|
  {
    ApplyKeepsChain(s, (steps + [step])[0]);
    if steps == [] {
      assert Run(Apply(s, step), []) == Apply(s, step);
    } else {
      assert (steps + [step])[1..] == steps[1..] + [step];
      RunAppend(Apply(s, steps[0]), steps[1..], step);
    }
  }

  /** Some run reaches the state from the empty system. */
  ghost predicate Reached(s: State) {
    Chain(s) && exists steps :: Run(INITIAL, steps) == s
  }

  lemma ReachedStep(s: State, step: Step)
    requires Reached(s)
    ensures Reached(Apply(s, step))
  {
    var steps :| Run(INITIAL, steps) == s;
    RunAppend(INITIAL, steps, step);
    ReachedRun(steps + [step]);
  }

  lemma ReachedRun(steps: seq<Step>)
    ensures Reached(Run(INITIAL, steps))
  {
  }

  // The witness: user 1 with application 1, who submits the licence first.

  function Started(app: Application, documents: set<Slot>): State {
    State(map[1 := RiderMode], map[1 := app], map[1 := 1], map[], documents, map[], map[], map[], map[])
  }

  const NEW := Application(1, NotStarted, None, None, None, None)
  const LICENSED := Application(1, LicenseSubmitted, None, Some("L"), None, None)

  lemma AnApplication() returns (s: State)
    ensures Reached(s) && s == Started(NEW, {})
  {
    assert Run(INITIAL, []) == INITIAL;
    ReachedStep(INITIAL, DoRegister(1));
    var s1 := Apply(INITIAL, DoRegister(1));
    ReachedStep(s1, DoStart(1, 1));
    s := Apply(s1, DoStart(1, 1));
  }

  lemma ALicense() returns (s: State)
    ensures Reached(s) && s == Started(LICENSED, {Slot(1, DriversLicense)})
  {
    var s1 := AnApplication();
    ReachedStep(s1, DoLicense(1, "L", "image/png"));
    s := Apply(s1, DoLicense(1, "L", "image/png"));
    LicenseEffect(s1);
  }

  lemma LicenseEffect(s: State)
    requires Schema(s) && s == Started(NEW, {})
    ensures SubmitLicense(s, 1, "L", "image/png").state == Started(LICENSED, {Slot(1, DriversLicense)})
  {
    assert PutDocument(s, 1, DriversLicense).documents == {Slot(1, DriversLicense)};
  }

  const CAR := Vehicle("P", "")
  const PAPERS := [Doc(VehicleRegistration, "image/png"), Doc(VehiclePhoto, "image/png")]

  lemma VehicleEffect(s: State)
    requires Schema(s) && s == Started(LICENSED, {Slot(1, DriversLicense)})
    ensures var s' := SubmitVehicle(s, 1, CAR, PAPERS).state;
      && s'.applications == map[1 := LICENSED.(vehicle := Some(CAR), status := UnderReview)]
      && s'.profiles == map[] && s'.profileByUser == map[] && s'.profileByApplication == map[]
      && s'.users == s.users && s'.redis == s.redis
  {
    UploadReplies(s, 1, PAPERS);
    UploadsOnly(s, 1, PAPERS);
    assert PAPERS[0] in PAPERS && PAPERS[1] in PAPERS;
    assert Complete(UploadAll(s, 1, PAPERS).state, 1);
  }

  lemma ReachedVehicle(s: State)
    requires Reached(s)
    ensures Reached(SubmitVehicle(s, 1, CAR, PAPERS).state)
  {
    ReachedStep(s, DoVehicle(1, CAR, PAPERS));
  }

  lemma AnApplicationUnderReview() returns (s: State)
    ensures Reached(s) && s.applications == map[1 := LICENSED.(vehicle := Some(CAR), status := UnderReview)]
  {
    var s1 := ALicense();
    ReachedVehicle(s1);
    VehicleEffect(s1);
    s := SubmitVehicle(s1, 1, CAR, PAPERS).state;
  }

  /**
   * Level A. The steps have no order: an application can be under review with
   * no personal information.
   */
  lemma ReviewWithoutPersonalInfo()
    ensures exists s ::
      && Reached(s)
      && 1 in s.applications && s.applications[1].status == UnderReview && s.applications[1].personalInfo == None
  {
    var s := AnApplicationUnderReview();
  }
}
