/**
 * Level B: onboarding calls in flight at once. Each read, upload and write is
 * a step; between any two, other calls may run or the call may die.
 */
module OnboardingInterleaving {
  import opened Common
  import opened CacheModel
  import opened Documents
  import opened Onboarding
  import I = IdentityCache
  import V = OnboardingInvariant

  /** What a mode switch, an online switch or a disconnect will do next. */
  datatype ModeCont =
    | WriteMode(user: UserId, mode: Mode)
    | LookUp(user: UserId, online: bool)       // the cached identity
    | ReadProfile(user: UserId, online: bool)
    | FillCache(user: UserId, online: bool, found: Option<I.Identity>)
    | WriteFlag(user: UserId, online: bool)

  /** What a call in flight will do next. */
  datatype Cont =
    | WriteNow(commit: Commit)
    | UploadLicense(application: AppId, license: string, mimetype: string)
    | CheckPlate(application: AppId, vehicle: Vehicle, files: seq<Doc>)
    | UploadFiles(application: AppId, vehicle: Vehicle, files: seq<Doc>)  // those left
    | ReadDocuments(application: AppId, vehicle: Vehicle)
    | UploadExtra(application: AppId, doc: Doc)
    | ModeNow(next: ModeCont)

  datatype System = System(s: State, calls: map<nat, Cont>)

  datatype Happening =
    | Arrive(id: nat, call: Step)  // a call arrives and makes its first read
    | Advance(id: nat)
    | Die(id: nat)

  datatype Progress = Progress(s: State, next: Option<Cont>)

  /** The calls that take several steps. */
  predicate IsLong(step: Step) {
    !step.DoRegister? && !step.DoEvict?
  }

  function First(s: State, call: Step): Option<Cont>
    requires Schema(s) && IsLong(call)
  {
    match call
    case DoSetActiveProfile(user, mode) =>
      if (mode == DriverMode && user !in s.profileByUser) || user !in s.users then None
      else Some(ModeNow(WriteMode(user, mode)))
    case DoSetOnline(user, online) =>
      if CanActivate(s, user, DriverMode) then Some(ModeNow(LookUp(user, online))) else None
    case DoDisconnect(user) => Some(ModeNow(LookUp(user, false)))
    case DoStart(user, freshId) =>
      if user !in s.users then None else
      (match FindByUser(s, user)
       case Fail(_) => Some(WriteNow(Create(freshId, user)))
       case Pass(a) => if s.applications[a].status == Rejected then Some(WriteNow(Restart(a))) else None)
    case DoPersonalInfo(user, info) =>
      (match LoadEditable(s, user) case Fail(_) => None case Pass(a) => Some(WriteNow(SavePersonalInfo(a, info))))
    case DoLicense(user, license, mimetype) =>
      (match LoadEditable(s, user) case Fail(_) => None case Pass(a) => Some(UploadLicense(a, license, mimetype)))
    case DoVehicle(user, vehicle, files) =>
      (match LoadEditable(s, user) case Fail(_) => None case Pass(a) => Some(CheckPlate(a, vehicle, files)))
    case DoOptional(user, doc) =>
      if doc.kind !in OPTIONAL then None else
      (match FindByUser(s, user) case Fail(_) => None case Pass(a) => Some(UploadExtra(a, doc)))
    case DoReview(a, verdict) =>
      if a !in s.applications || s.applications[a].status != UnderReview then None else
      (match verdict
       case Rejection(reason) => Some(WriteNow(Reject(a, reason)))
       case Approval(profile) => Some(WriteNow(Approve(a, s.applications[a].userId, profile))))
  }

  /** What a call in flight remembers is still true. */
  predicate Remembers(s: State, k: Cont) {
    match k
    case WriteNow(c) => Holds(s, c) && (c.SaveVehicle? || c.Approve? ==> Complete(s, c.application))
    case ModeNow(WriteMode(user, mode)) => user in s.users && (mode == DriverMode ==> user in s.profileByUser)
    case ModeNow(FillCache(user, _, found)) => I.Sound(s.profileByUser, user, found)
    case ModeNow(_) => true
    case _ => k.application in s.applications
  }

  predicate HasProfile(s: State, user: UserId) {
    user in s.profileByUser && s.profileByUser[user] in s.profiles
  }

  /** driverProfile.update by unique user; without a row it throws. */
  function SetFlag(s: State, user: UserId, online: bool): State {
    if !HasProfile(s, user) then s else
    var p := s.profileByUser[user];
    s.(profiles := s.profiles[p := s.profiles[p].(isOnline := online)])
  }

  function NextMode(s: State, k: ModeCont): Progress {
    match k
    case WriteMode(user, mode) =>
      Progress(s.(users := s.users[user := mode]),
               if mode == RiderMode then Some(ModeNow(LookUp(user, false))) else None)
    case LookUp(user, online) =>
      Progress(s, Some(ModeNow(
        if Get(s.redis, user).Some? then WriteFlag(user, online) else ReadProfile(user, online))))
    case ReadProfile(user, online) => Progress(s, Some(ModeNow(FillCache(user, online, I.Held(s.profileByUser, user)))))
    case FillCache(user, online, found) =>
      Progress(s.(redis := s.redis[user := Stringify(found)]),
               if found.Some? then Some(ModeNow(WriteFlag(user, online))) else None)
    case WriteFlag(user, online) => Progress(SetFlag(s, user, online), None)
  }

  function Next(s: State, k: Cont): Progress
    requires Remembers(s, k)
  {
    match k
    case ModeNow(m) => NextMode(s, m)
    case WriteNow(c) => Progress(Perform(s, c), None)
    case UploadLicense(a, license, mimetype) =>
      if mimetype !in ALLOWED_MIME_TYPES then Progress(s, None)
      else Progress(PutDocument(s, a, DriversLicense), Some(WriteNow(SaveLicense(a, license))))
    case CheckPlate(a, vehicle, files) =>
      Progress(s, if PlateAvailable(s, vehicle.plateNumber, a) then Some(UploadFiles(a, vehicle, files)) else None)
    case UploadFiles(a, vehicle, files) =>
      if files == [] then Progress(s, Some(ReadDocuments(a, vehicle)))
      else if files[0].mimetype !in ALLOWED_MIME_TYPES then Progress(s, None)
      else Progress(PutDocument(s, a, files[0].kind), Some(UploadFiles(a, vehicle, files[1..])))
    case ReadDocuments(a, vehicle) =>
      Progress(s, if Complete(s, a) then Some(WriteNow(SaveVehicle(a, vehicle))) else None)
    case UploadExtra(a, doc) =>
      Progress(if doc.mimetype in ALLOWED_MIME_TYPES then PutDocument(s, a, doc.kind) else s, None)
  }

  // --------------------------------------------------- One call on its own

  function StepsLeft(k: Cont): nat {
    match k
    case CheckPlate(_, _, files) => |files| + 4
    case UploadFiles(_, _, files) => |files| + 3
    case ReadDocuments(_, _) => 2
    case UploadLicense(_, _, _) => 2
    case ModeNow(WriteMode(_, _)) => 5
    case ModeNow(LookUp(_, _)) => 4
    case ModeNow(ReadProfile(_, _)) => 3
    case ModeNow(FillCache(_, _, _)) => 2
    case _ => 1
  }

  lemma NextRemembers(s: State, k: Cont)
    requires Remembers(s, k)
    ensures var p := Next(s, k); p.next.Some? ==> Remembers(p.s, p.next.value) && StepsLeft(p.next.value) < StepsLeft(k)
  {
  }

  /** A call left alone from its continuation to its end. */
  function Finish(s: State, k: Cont): State
    requires Remembers(s, k)
    decreases StepsLeft(k)
  {
    NextRemembers(s, k);
    var p := Next(s, k);
    if p.next.None? then p.s else Finish(p.s, p.next.value)
  }

  lemma {:induction false} UploadsAlone(s: State, a: AppId, vehicle: Vehicle, files: seq<Doc>)
    requires a in s.applications
    ensures var r := UploadAll(s, a, files);
      && a in r.state.applications
      && Finish(s, UploadFiles(a, vehicle, files)) ==
         if r.reply == Ok && Complete(r.state, a) then Perform(r.state, SaveVehicle(a, vehicle)) else r.state
    decreases |files|
  {
    UploadsOnly(s, a, files);
    NextRemembers(s, UploadFiles(a, vehicle, files));
    if files == [] {
      NextRemembers(s, ReadDocuments(a, vehicle));
      assert Finish(s, UploadFiles(a, vehicle, [])) == Finish(s, ReadDocuments(a, vehicle));
      assert Complete(s, a) ==> Finish(s, ReadDocuments(a, vehicle)) == Finish(s, WriteNow(SaveVehicle(a, vehicle)));
    } else if files[0].mimetype in ALLOWED_MIME_TYPES {
      UploadsAlone(PutDocument(s, a, files[0].kind), a, vehicle, files[1..]);
    }
  }

  lemma {:induction false} VehicleAlone(s: State, user: UserId, vehicle: Vehicle, files: seq<Doc>)
    requires Schema(s) && LoadEditable(s, user).Pass?
    ensures Finish(s, CheckPlate(LoadEditable(s, user).value, vehicle, files)) ==
      SubmitVehicle(s, user, vehicle, files).state
  {
    var a := LoadEditable(s, user).value;
    NextRemembers(s, CheckPlate(a, vehicle, files));
    if PlateAvailable(s, vehicle.plateNumber, a) {
      UploadsAlone(s, a, vehicle, files);
    }
  }

  lemma {:induction false} LicenseAlone(s: State, user: UserId, license: string, mimetype: string)
    requires Schema(s) && LoadEditable(s, user).Pass?
    ensures Finish(s, UploadLicense(LoadEditable(s, user).value, license, mimetype)) ==
      SubmitLicense(s, user, license, mimetype).state
  {
    NextRemembers(s, UploadLicense(LoadEditable(s, user).value, license, mimetype));
  }

  /** A lookup and the flag write after it. */
  lemma {:induction false} LookUpAlone(s: State, user: UserId, online: bool)
    requires Schema(s)
    ensures var r := FindIdentity(s, user);
      && Schema(r.0)
      && Finish(s, ModeNow(LookUp(user, online))) == if r.1.None? then r.0 else WriteOnline(r.0, user, online).state
  {
    V.LookupOnlyFlag(s, user);
    var k := ModeNow(LookUp(user, online));
    NextRemembers(s, k);
    if Get(s.redis, user).None? {
      var k1 := ModeNow(ReadProfile(user, online));
      NextRemembers(s, k1);
      var k2 := Next(s, k1).next.value;
      NextRemembers(s, k2);
      assert Finish(s, k) == Finish(s, k1) == Finish(s, k2);
      if user in s.profileByUser {
        assert Finish(s, k2) == Finish(FindIdentity(s, user).0, ModeNow(WriteFlag(user, online)));
      }
    }
  }

  lemma {:induction false} ModeCallAlone(s: State, call: Step)
    requires Schema(s) && IsLong(call) && !IsCall(call)
    ensures First(s, call).Some? ==> Remembers(s, First(s, call).value)
    ensures Apply(s, call) == if First(s, call).None? then s else Finish(s, First(s, call).value)
  {
    match call
    case DoSetActiveProfile(user, mode) =>
      if First(s, call).Some? {
        var s1 := s.(users := s.users[user := mode]);
        V.FlagsKeepSchema(s, s1);
        NextRemembers(s, First(s, call).value);
        if mode == RiderMode { LookUpAlone(s1, user, false); }
      }
    case DoSetOnline(user, online) => LookUpAlone(s, user, online);
    case DoDisconnect(user) => LookUpAlone(s, user, false);
  }

  /** Documents precede review; the approval comes with its profile; driver mode has one; the cache is sound. */
  ghost predicate Kept(s: State) {
    && Schema(s)
    && V.RedisOk(s)
    && (forall u {:trigger V.ModeOk(s, u)} :: u in s.users ==> V.ModeOk(s, u))
    && (forall a {:trigger KeptOf(s, a)} :: a in s.applications ==> KeptOf(s, a))
  }

  predicate KeptOf(s: State, a: AppId)
    requires a in s.applications
  {
    && (s.applications[a].status in {UnderReview, Verified} || a in s.profileByApplication ==> Complete(s, a))
    && (s.applications[a].status == Verified ==> a in s.profileByApplication)
  }

  lemma FirstRemembers(s: State, call: Step)
    requires Kept(s) && IsLong(call)
    ensures First(s, call).Some? ==> Remembers(s, First(s, call).value)
  {
    if call.DoReview? && call.application in s.applications { assert KeptOf(s, call.application); }
  }

  /** Level B refines to Level A: a call nothing interferes with is its single step. */
  lemma {:induction false} AloneIsAtOnce(s: State, call: Step)
    requires Kept(s) && IsLong(call)
    ensures First(s, call).Some? ==> Remembers(s, First(s, call).value)
    ensures Apply(s, call) == if First(s, call).None? then s else Finish(s, First(s, call).value)
  {
    FirstRemembers(s, call);
    if !IsCall(call) {
      ModeCallAlone(s, call);
    } else if First(s, call).Some? {
      match call
      case DoVehicle(user, vehicle, files) => VehicleAlone(s, user, vehicle, files);
      case DoLicense(user, license, mimetype) => LicenseAlone(s, user, license, mimetype);
      case _ =>
    }
  }

  // ---------------------------------------------------------------- Safety

  /** Nothing a call remembers can be undone. */
  ghost predicate StateGrows(s: State, s': State) {
    && s.users.Keys <= s'.users.Keys
    && s.documents <= s'.documents
    && (forall a :: a in s.applications ==>
          a in s'.applications && s'.applications[a].userId == s.applications[a].userId)
    && (forall u :: u in s.profileByUser ==> u in s'.profileByUser && s'.profileByUser[u] == s.profileByUser[u])
  }

  lemma GrowthKeepsMemory(s: State, s': State, k: Cont)
    requires Remembers(s, k) && StateGrows(s, s')
    ensures Remembers(s', k)
  {
  }

  lemma PerformKeepsApplications(s: State, c: Commit)
    requires Kept(s) && Remembers(s, WriteNow(c))
    ensures Kept(Perform(s, c)) && StateGrows(s, Perform(s, c))
  {
    if !Refused(s, c) {
      V.PerformKeepsSchema(s, c);
      V.PerformWrote(s, c);
      WriteKeepsApplications(s, Perform(s, c), c);
      WriteGrows(s, Perform(s, c), c);
    }
  }

  lemma WriteKeepsApplications(s: State, s': State, c: Commit)
    requires Kept(s) && Remembers(s, WriteNow(c)) && !Refused(s, c) && Schema(s') && V.Wrote(s, s', c)
    ensures Kept(s')
  {
    forall a | a in s'.applications ensures KeptOf(s', a) { WriteKeepsOne(s, s', c, a); }
    forall u | u in s'.redis ensures V.CachedOk(s', u) { assert V.CachedOk(s, u); }
    forall u | u in s'.users ensures V.ModeOk(s', u) { assert V.ModeOk(s, u); }
  }

  lemma WriteKeepsOne(s: State, s': State, c: Commit, a: AppId)
    requires Kept(s) && Remembers(s, WriteNow(c)) && !Refused(s, c) && V.Wrote(s, s', c) && a in s'.applications
    ensures KeptOf(s', a)
  {
    if a in s.applications { assert KeptOf(s, a); }
    if a in s.profileByApplication { assert ProfileKeyed(s, s.profileByApplication[a]); }
  }

  lemma WriteGrows(s: State, s': State, c: Commit)
    requires !Refused(s, c) && V.Wrote(s, s', c)
    ensures StateGrows(s, s')
  {
  }

  lemma UploadKeepsApplications(s: State, a: AppId, kind: DocType)
    requires Kept(s)
    ensures Kept(PutDocument(s, a, kind)) && StateGrows(s, PutDocument(s, a, kind))
  {
    var s' := PutDocument(s, a, kind);
    V.DocumentsKeepSchema(s, s'.documents);
    forall b | b in s'.applications ensures KeptOf(s', b) { assert KeptOf(s, b); }
    forall u | u in s'.redis ensures V.CachedOk(s', u) { assert V.CachedOk(s, u); }
    forall u | u in s'.users ensures V.ModeOk(s', u) { assert V.ModeOk(s, u); }
  }

  /** Modes, flags and cached identities change; everything else is as it was. */
  lemma FlagsKeep(s: State, s': State)
    requires Kept(s) && V.OnlyFlags(s, s') && V.RedisOk(s')
    requires forall u :: u in s'.users ==> V.ModeOk(s', u)
    ensures Kept(s') && StateGrows(s, s')
  {
    V.FlagsKeepSchema(s, s');
    forall a | a in s'.applications ensures KeptOf(s', a) { assert KeptOf(s, a); }
  }

  lemma ModeKeeps(s: State, k: ModeCont)
    requires Kept(s) && Remembers(s, ModeNow(k))
    ensures V.OnlyFlags(s, NextMode(s, k).s)
    ensures Kept(NextMode(s, k).s) && StateGrows(s, NextMode(s, k).s)
  {
    var s' := NextMode(s, k).s;
    forall u | u in s'.redis ensures V.CachedOk(s', u) { if u in s.redis { assert V.CachedOk(s, u); } }
    forall u | u in s'.users ensures V.ModeOk(s', u) { if u in s.users { assert V.ModeOk(s, u); } }
    FlagsKeep(s, s');
  }

  lemma NextKeeps(s: State, k: Cont)
    requires Kept(s) && Remembers(s, k)
    ensures Kept(Next(s, k).s) && StateGrows(s, Next(s, k).s)
  {
    match k
    case WriteNow(c) => PerformKeepsApplications(s, c);
    case UploadLicense(a, _, _) => UploadKeepsApplications(s, a, DriversLicense);
    case UploadFiles(a, _, files) => if files != [] { UploadKeepsApplications(s, a, files[0].kind); }
    case UploadExtra(a, doc) => UploadKeepsApplications(s, a, doc.kind);
    case ModeNow(m) => ModeKeeps(s, m);
    case _ =>
  }

  /** Sign-ups and evictions. */
  lemma OutsideKeeps(s: State, step: Step)
    requires Kept(s) && !IsLong(step)
    ensures Kept(Apply(s, step)) && StateGrows(s, Apply(s, step))
  {
    OutsideKeepsModes(s, step);
    FlagsKeep(s, Apply(s, step));
  }

  lemma OutsideKeepsModes(s: State, step: Step)
    requires Kept(s) && !IsLong(step)
    ensures var s' := Apply(s, step);
      V.OnlyFlags(s, s') && V.RedisOk(s') && forall u :: u in s'.users ==> V.ModeOk(s', u)
  {
    var s' := Apply(s, step);
    forall u | u in s'.redis ensures V.CachedOk(s', u) { assert V.CachedOk(s, u) && s'.redis[u] == s.redis[u]; }
    forall u | u in s'.users ensures V.ModeOk(s', u) { if u in s.users { assert V.ModeOk(s, u); } }
  }

  ghost predicate Valid(y: System) {
    Kept(y.s) && forall id :: id in y.calls ==> Remembers(y.s, y.calls[id])
  }

  function Update(y: System, id: nat, s: State, next: Option<Cont>): System {
    System(s, if next.Some? then y.calls[id := next.value] else y.calls - {id})
  }

  ghost function Happen(y: System, e: Happening): System
    requires Valid(y)
  {
    match e
    case Arrive(id, call) =>
      if !IsLong(call) then y.(s := Apply(y.s, call))
      else if id in y.calls then y
      else Update(y, id, y.s, First(y.s, call))
    case Advance(id) =>
      if id !in y.calls then y
      else Update(y, id, Next(y.s, y.calls[id]).s, Next(y.s, y.calls[id]).next)
    case Die(id) => y.(calls := y.calls - {id})
  }

  lemma UpdateIsValid(y: System, id: nat, s: State, next: Option<Cont>)
    requires Valid(y) && Kept(s) && StateGrows(y.s, s)
    requires next.Some? ==> Remembers(s, next.value)
    ensures Valid(Update(y, id, s, next))
  {
    forall i | i in y.calls ensures Remembers(s, y.calls[i]) {
      GrowthKeepsMemory(y.s, s, y.calls[i]);
    }
  }

  lemma HappenKeepsValid(y: System, e: Happening)
    requires Valid(y)
    ensures Valid(Happen(y, e))
  {
    match e
    case Arrive(id, call) =>
      if !IsLong(call) {
        OutsideKeeps(y.s, call);
        forall i | i in y.calls ensures Remembers(Apply(y.s, call), y.calls[i]) {
          GrowthKeepsMemory(y.s, Apply(y.s, call), y.calls[i]);
        }
      } else if id !in y.calls {
        FirstRemembers(y.s, call);
        UpdateIsValid(y, id, y.s, First(y.s, call));
      }
    case Advance(id) =>
      if id in y.calls {
        NextRemembers(y.s, y.calls[id]);
        NextKeeps(y.s, y.calls[id]);
        UpdateIsValid(y, id, Next(y.s, y.calls[id]).s, Next(y.s, y.calls[id]).next);
      }
    case Die(_) =>
  }

  ghost function RunAll(y: System, events: seq<Happening>): (r: System)
    requires Valid(y)
    ensures Valid(r)
    decreases |events|
  {
    if events == [] then y else
    HappenKeepsValid(y, events[0]);
    RunAll(Happen(y, events[0]), events[1..])
  }

  const NOTHING := System(INITIAL, map[])

  /**
   * Level B. However calls interleave and die, an application that is under
   * review, verified or behind a profile has its three required documents, and
   * a verified one has its profile.
   */
  lemma {:induction false} DocumentsPrecedeReview(events: seq<Happening>, a: AppId)
    requires a in RunAll(NOTHING, events).s.applications
    ensures var s := RunAll(NOTHING, events).s;
      && (s.applications[a].status in {UnderReview, Verified} || (exists p :: p in s.profiles
                                                                                && s.profiles[p].application == a) ==>
            && Slot(a, DriversLicense) in s.documents
            && Slot(a, VehicleRegistration) in s.documents
            && Slot(a, VehiclePhoto) in s.documents)
      && (s.applications[a].status == Verified ==>
            exists p ::
              p in s.profiles && s.profiles[p].application == a && s.profiles[p].userId == s.applications[a].userId)
  {
    var s := RunAll(NOTHING, events).s;
    assert KeptOf(s, a);
    forall p | p in s.profiles && s.profiles[p].application == a ensures a in s.profileByApplication {
      assert ProfileKeyed(s, p);
    }
    if a in s.profileByApplication { assert ProfileKeyed(s, s.profileByApplication[a]); }
  }

  /** Level B. Concurrent approvals create at most one profile per application and per user. */
  lemma {:induction false} OneProfile(events: seq<Happening>, p: ProfileId, q: ProfileId)
    requires p in RunAll(NOTHING, events).s.profiles && q in RunAll(NOTHING, events).s.profiles
    requires var s := RunAll(NOTHING, events).s;
      s.profiles[p].application == s.profiles[q].application || s.profiles[p].userId == s.profiles[q].userId
    ensures p == q
  {
    var s := RunAll(NOTHING, events).s;
    assert ProfileKeyed(s, p) && ProfileKeyed(s, q);
  }

  /** Level B. In driver mode there is a profile, and a cached identity is the database's. */
  lemma {:induction false} DriverModeHasProfile(events: seq<Happening>, user: UserId)
    ensures var s := RunAll(NOTHING, events).s;
      && (user in s.users && s.users[user] == DriverMode ==> user in s.profileByUser)
      && (Get(s.redis, user).Some? ==> Get(s.redis, user) == I.Held(s.profileByUser, user))
  {
    var s := RunAll(NOTHING, events).s;
    if user in s.users { assert V.ModeOk(s, user); }
    if user in s.redis { assert V.CachedOk(s, user); }
  }

  // ------------------------------------------------------- Reached systems

  lemma {:induction false} RunAllAppend(y: System, events: seq<Happening>, e: Happening)
    requires Valid(y)
    ensures RunAll(y, events + [e]) == Happen(RunAll(y, events), e)
    decreases |events|
  {
    HappenKeepsValid(y, (events + [e])[0]);
    if events == [] {
      assert RunAll(Happen(y, e), []) == Happen(y, e);
    } else {
      assert (events + [e])[1..] == events[1..] + [e];
      RunAllAppend(Happen(y, events[0]), events[1..], e);
    }
  }

  /** Some run reaches the system from the empty one. */
  ghost predicate Reached(y: System) {
    Valid(y) && exists events :: RunAll(NOTHING, events) == y
  }

  lemma ReachedStep(y: System, e: Happening)
    requires Reached(y)
    ensures Reached(Happen(y, e))
  {
    var events :| RunAll(NOTHING, events) == y;
    RunAllAppend(NOTHING, events, e);
    HappenKeepsValid(y, e);
    assert RunAll(NOTHING, events + [e]) == Happen(y, e);
  }

  lemma {:induction false} ReachedFinish(y: System, id: nat, k: Cont)
    requires Reached(y) && id in y.calls && y.calls[id] == k
    ensures Reached(System(Finish(y.s, k), y.calls - {id}))
    decreases StepsLeft(k)
  {
    ReachedStep(y, Advance(id));
    NextRemembers(y.s, k);
    var p := Next(y.s, k);
    if p.next.Some? {
      var z := Happen(y, Advance(id));
      ReachedFinish(z, id, p.next.value);
      assert z.calls - {id} == y.calls - {id};
    }
  }

  lemma ReachedCallSteps(y: System, id: nat, call: Step)
    requires Reached(y) && id !in y.calls && IsLong(call)
    ensures Reached(System(Apply(y.s, call), y.calls))
  {
    ReachedStep(y, Arrive(id, call));
    AloneIsAtOnce(y.s, call);
    var z := Happen(y, Arrive(id, call));
    assert z.calls - {id} == y.calls;
    if First(y.s, call).Some? {
      ReachedFinish(z, id, First(y.s, call).value);
    }
  }

  /** A call run without interruption takes a reached system to the one its single step leads to. */
  lemma ReachedCall(y: System, id: nat, call: Step)
    requires Reached(y) && id !in y.calls
    ensures Reached(System(Apply(y.s, call), y.calls))
  {
    if IsLong(call) {
      ReachedCallSteps(y, id, call);
    } else {
      ReachedStep(y, Arrive(id, call));
    }
  }

  /** Every run of Level A is a run of Level B. */
  lemma {:induction false} AtomicRunsAreRuns(y: System, steps: seq<Step>)
    requires Reached(y) && V.Chain(y.s)
    ensures Reached(System(V.Run(y.s, steps), y.calls))
    decreases |steps|
  {
    if steps != [] {
      V.ApplyKeepsChain(y.s, steps[0]);
      var id := Unused(y.calls);
      ReachedCall(y, id, steps[0]);
      AtomicRunsAreRuns(System(Apply(y.s, steps[0]), y.calls), steps[1..]);
    }
  }

  ghost predicate AllBelow(ids: set<nat>, n: nat) {
    forall id :: id in ids ==> id < n
  }

  ghost function Unused(calls: map<nat, Cont>): (id: nat)
    ensures id !in calls
  {
    SomeBound(calls.Keys);
    var n: nat :| AllBelow(calls.Keys, n);
    n
  }

  lemma {:induction false} SomeBound(ids: set<nat>)
    ensures exists n: nat :: AllBelow(ids, n)
    decreases ids
  {
    if ids == {} {
      assert AllBelow(ids, 0);
    } else {
      var id :| id in ids;
      SomeBound(ids - {id});
      var n: nat :| AllBelow(ids - {id}, n);
      assert AllBelow(ids, n + id + 1) by {
        forall i | i in ids ensures i < n + id + 1 {
          assert i != id ==> i in ids - {id};
        }
      }
    }
  }

  // ------------------------------------------------------ What is not kept

  const STALE := map[1 := WriteNow(SavePersonalInfo(1, "N"))]

  lemma ReaderEffect(s: State)
    requires Schema(s) && s == V.Started(V.LICENSED, {Slot(1, DriversLicense)})
    ensures First(s, DoPersonalInfo(1, "N")) == Some(STALE[1])
  {
  }

  /** A personal-info submission has read the application. */
  lemma AReader() returns (y: System)
    ensures Reached(y) && y.calls == STALE
    ensures y.s == V.Started(V.LICENSED, {Slot(1, DriversLicense)})
  {
    var s := V.ALicense();
    var steps :| V.Run(INITIAL, steps) == s;
    assert RunAll(NOTHING, []) == NOTHING;
    AtomicRunsAreRuns(NOTHING, steps);
    ReaderEffect(s);
    ReachedStep(System(s, map[]), Arrive(1, DoPersonalInfo(1, "N")));
    y := System(s, STALE);
  }

  lemma AReaderBehindReview() returns (y: System)
    ensures Reached(y) && y.calls == STALE
    ensures y.s.applications == map[1 := V.LICENSED.(vehicle := Some(V.CAR), status := UnderReview)]
    ensures y.s.profiles == map[] && y.s.profileByUser == map[] && y.s.profileByApplication == map[]
  {
    var y1 := AReader();
    y := System(SubmitVehicle(y1.s, 1, V.CAR, V.PAPERS).state, STALE);
    assert Reached(y) by { ReachedCall(y1, 2, DoVehicle(1, V.CAR, V.PAPERS)); }
    V.VehicleEffect(y1.s);
  }

  lemma ApprovalEffect(s: State)
    requires Schema(s) && s.applications == map[1 := V.LICENSED.(vehicle := Some(V.CAR), status := UnderReview)]
    requires s.profiles == map[] && s.profileByUser == map[] && s.profileByApplication == map[]
    ensures var s' := Review(s, 1, Approval(7)).state; 1 in s'.applications && 1 in s'.profileByApplication
  {
  }

  lemma AStaleSubmission() returns (y: System)
    ensures Reached(y) && y.calls == STALE
    ensures 1 in y.s.applications && 1 in y.s.profileByApplication
  {
    var y1 := AReaderBehindReview();
    ApprovalEffect(y1.s);
    ReachedCall(y1, 2, DoReview(1, Approval(7)));
    y := System(Apply(y1.s, DoReview(1, Approval(7))), STALE);
  }

  /**
   * Level B does not keep the chain: a submission that read the application
   * before its approval and writes after it takes VERIFIED away again, and
   * leaves the profile.
   */
  lemma ProfileCanOutliveVerified()
    ensures exists y ::
      && Reached(y)
      && 1 in y.s.applications && y.s.applications[1].status == PersonalInfoSubmitted && 1 in y.s.profileByApplication
  {
    var y := AStaleSubmission();
    ReachedStep(y, Advance(1));
    y := Happen(y, Advance(1));
  }
}
