/**
 * Level A. What each onboarding call answers and leaves behind, read off the
 * rows, with the statuses, documents and file types written out. Nothing here
 * names the checks and writes that the calls are composed of.
 */
module OnboardingCalls {
  import opened Common
  import opened Documents
  import opened Onboarding
  import opened OnboardingInvariant

  // ------------------------------------------------------------------ Start

  /** Starting is refused to strangers and once the application is under review or verified. */
  lemma StartRepliesIff(s: State, user: UserId, freshId: AppId)
    requires Schema(s)
    ensures var reply := Start(s, user, freshId).reply;
      && (reply == Unauthorized <==> user !in s.users)
      && (reply == Conflict <==>
            exists a :: Owns(s, a, user) && s.applications[a].status in {UnderReview, Verified})
      && (reply == UniqueViolation <==>
            user in s.users && (forall a :: !Owns(s, a, user)) && freshId in s.applications)
      && reply in {Ok, Unauthorized, Conflict, UniqueViolation}
    ensures Start(s, user, freshId).reply != Ok ==> Start(s, user, freshId).state == s
  {
    IndexedOwner(s, user);
  }

  /** The index knows the user exactly when some application is theirs, and then it is that one. */
  lemma IndexedOwner(s: State, user: UserId)
    requires Schema(s)
    ensures user in s.applicationByUser ==> Owns(s, s.applicationByUser[user], user) && user in s.users
    ensures forall a :: Owns(s, a, user) ==> user in s.applicationByUser && s.applicationByUser[user] == a
  {
    if user in s.applicationByUser { assert ApplicationKeyed(s, s.applicationByUser[user]); }
    forall a: AppId | Owns(s, a, user) ensures user in s.applicationByUser && s.applicationByUser[user] == a {
      OwnIsIndexed(s, a, user);
    }
  }

  /** A first start creates a blank application and nothing else. */
  lemma FirstStart(s: State, user: UserId, freshId: AppId)
    requires Schema(s) && Start(s, user, freshId).reply == Ok && forall a :: !Owns(s, a, user)
    ensures Start(s, user, freshId).state ==
      s.(applications := s.applications[freshId := Application(user, NotStarted, None, None, None, None)],
         applicationByUser := s.applicationByUser[user := freshId])
  {
    IndexedOwner(s, user);
  }

  /** A restart after a rejection clears the status and the reason, and keeps what was submitted. */
  lemma LaterStart(s: State, user: UserId, freshId: AppId, a: AppId)
    requires Schema(s) && Start(s, user, freshId).reply == Ok && Owns(s, a, user)
    ensures var app := s.applications[a];
      Start(s, user, freshId).state ==
        if app.status == Rejected
        then s.(applications := s.applications[a :=
                  Application(user, NotStarted, app.personalInfo, app.license, app.vehicle, None)])
        else s
  {
    OwnIsIndexed(s, a, user);
  }

  // ------------------------------------------------------------------ Steps

  lemma EditableOwner(s: State, user: UserId)
    requires Schema(s)
    ensures LoadEditable(s, user).Pass? <==> exists a :: Owns(s, a, user) && IsEditable(s.applications[a].status)
    ensures LoadEditable(s, user) == Fail(NotFound) <==> forall a :: !Owns(s, a, user)
    ensures LoadEditable(s, user) == Fail(Conflict) <==>
      exists a :: Owns(s, a, user) && s.applications[a].status in {UnderReview, Verified, Rejected}
    ensures LoadEditable(s, user).Fail? ==> LoadEditable(s, user).reply in {NotFound, Conflict}
  {
    IndexedOwner(s, user);
  }

  /** Personal information is taken in the editable statuses. */
  lemma PersonalInfoRepliesIff(s: State, user: UserId, info: string)
    requires Schema(s)
    ensures var reply := SubmitPersonalInfo(s, user, info).reply;
      && (reply == Ok <==> exists a :: Owns(s, a, user) && IsEditable(s.applications[a].status))
      && (reply == NotFound <==> forall a :: !Owns(s, a, user))
      && (reply == Conflict <==>
            exists a :: Owns(s, a, user) && s.applications[a].status in {UnderReview, Verified, Rejected})
    ensures SubmitPersonalInfo(s, user, info).reply != Ok ==> SubmitPersonalInfo(s, user, info).state == s
  {
    EditableOwner(s, user);
  }

  lemma PersonalInfoEffect(s: State, user: UserId, info: string, a: AppId)
    requires Schema(s) && SubmitPersonalInfo(s, user, info).reply == Ok && Owns(s, a, user)
    ensures var app := s.applications[a];
      SubmitPersonalInfo(s, user, info).state == s.(applications := s.applications[a :=
        Application(user, PersonalInfoSubmitted, Some(info), app.license, app.vehicle, app.rejectionReason)])
  {
    OwnIsIndexed(s, a, user);
  }

  /** So is a licence, with a picture of a supported type. */
  lemma LicenseRepliesIff(s: State, user: UserId, license: string, mimetype: string)
    requires Schema(s)
    ensures var reply := SubmitLicense(s, user, license, mimetype).reply;
      && (reply == Ok <==>
            IsSupported(mimetype) && exists a :: Owns(s, a, user) && IsEditable(s.applications[a].status))
      && (reply == BadRequest <==>
            !IsSupported(mimetype) && exists a :: Owns(s, a, user) && IsEditable(s.applications[a].status))
      && (reply == NotFound <==> forall a :: !Owns(s, a, user))
      && (reply == Conflict <==>
            exists a :: Owns(s, a, user) && s.applications[a].status in {UnderReview, Verified, Rejected})
    ensures SubmitLicense(s, user, license, mimetype).reply != Ok ==>
      SubmitLicense(s, user, license, mimetype).state == s
  {
    EditableOwner(s, user);
  }

  lemma LicenseEffect(s: State, user: UserId, license: string, mimetype: string, a: AppId)
    requires Schema(s) && SubmitLicense(s, user, license, mimetype).reply == Ok && Owns(s, a, user)
    ensures var app := s.applications[a];
      SubmitLicense(s, user, license, mimetype).state == s.(
        applications := s.applications[a :=
          Application(user, LicenseSubmitted, app.personalInfo, Some(license), app.vehicle, app.rejectionReason)],
        documents := s.documents + {Slot(a, DriversLicense)})
  {
    OwnIsIndexed(s, a, user);
  }

  /** Which refusal a vehicle gets that does not fit, and what it may leave behind. */
  lemma VehicleRefusals(s: State, user: UserId, vehicle: Vehicle, files: seq<Doc>)
    requires Schema(s)
    ensures var r := SubmitVehicle(s, user, vehicle, files);
      && (r.reply == NotFound <==> forall a :: !Owns(s, a, user))
      && (r.reply == Conflict <==>
            exists a :: Owns(s, a, user)
              && !(IsEditable(s.applications[a].status) && IsFree(s, vehicle.plateNumber, a)))
      && r.reply in {Ok, NotFound, Conflict, BadRequest}
      && (r.reply in {NotFound, Conflict} ==> r.state == s)
      && (r.reply == BadRequest ==> r.state == s.(documents := r.state.documents))
  {
    EditableOwner(s, user);
    IndexedOwner(s, user);
    PlateCheckSuffices(s, user, vehicle, files);
    forall a: AppId ensures IsFree(s, vehicle.plateNumber, a) <==> PlateAvailable(s, vehicle.plateNumber, a) {
      FreeIffAvailable(s, vehicle.plateNumber, a);
    }
    if LoadEditable(s, user).Pass? {
      UploadsOnly(s, LoadEditable(s, user).value, files);
      UploadReplies(s, LoadEditable(s, user).value, files);
    }
  }

  /** A vehicle that fits goes on file with its documents, and the application under review. */
  lemma VehicleEffectOn(s: State, user: UserId, vehicle: Vehicle, files: seq<Doc>, a: AppId)
    requires Schema(s) && VehicleFits(s, a, user, vehicle, files)
    ensures var r := SubmitVehicle(s, user, vehicle, files); var app := s.applications[a];
      && r.reply == Ok
      && r.state == s.(applications := r.state.applications, applicationByPlate := r.state.applicationByPlate,
                       documents := r.state.documents)
      && r.state.documents == s.documents + (set f | f in files :: Slot(a, f.kind))
      && r.state.applications == s.applications[a :=
           Application(user, UnderReview, app.personalInfo, app.license, Some(vehicle), app.rejectionReason)]
  {
    OwnIsIndexed(s, a, user);
    VehicleFitsIff(s, a, user, vehicle, files);
    UploadsOnly(s, a, files);
    UploadReplies(s, a, files);
  }

  /** Proof of insurance and a profile picture are taken at any status; the other documents are not taken here. */
  lemma OptionalRepliesIff(s: State, user: UserId, doc: Doc)
    requires Schema(s)
    ensures var reply := UploadOptional(s, user, doc).reply;
      var optional := doc.kind == ProofOfInsurance || doc.kind == ProfilePhoto;
      && (reply == Ok <==> optional && IsSupported(doc.mimetype) && exists a :: Owns(s, a, user))
      && (reply == NotFound <==> optional && forall a :: !Owns(s, a, user))
      && (reply == BadRequest <==> !optional || (!IsSupported(doc.mimetype) && exists a :: Owns(s, a, user)))
    ensures UploadOptional(s, user, doc).reply != Ok ==> UploadOptional(s, user, doc).state == s
    ensures forall a :: UploadOptional(s, user, doc).reply == Ok && Owns(s, a, user) ==>
      UploadOptional(s, user, doc).state == s.(documents := s.documents + {Slot(a, doc.kind)})
  {
    IndexedOwner(s, user);
  }

  // ----------------------------------------------------------------- Review

  lemma ReviewRefusals(s: State, a: AppId, verdict: Verdict)
    requires Schema(s)
    ensures Review(s, a, verdict).reply == NotFound <==> a !in s.applications
    ensures Review(s, a, verdict).reply == Conflict <==> a in s.applications && s.applications[a].status != UnderReview
    ensures Review(s, a, verdict).reply != Ok ==> Review(s, a, verdict).state == s
  {
  }

  /** A rejection puts its reason on file and keeps what was submitted. */
  lemma RejectionEffect(s: State, a: AppId, reason: string)
    requires Schema(s) && a in s.applications && s.applications[a].status == UnderReview
    ensures var app := s.applications[a]; var r := Review(s, a, Rejection(reason));
      && r.reply == Ok
      && r.state == s.(applications := s.applications[a :=
           Application(app.userId, Rejected, app.personalInfo, app.license, app.vehicle, Some(reason))])
  {
  }

  /** An approval keeps what was submitted, clears the reason, and creates the applicant's profile, off line. */
  lemma ApprovalEffect(s: State, a: AppId, profile: ProfileId)
    requires Schema(s) && Review(s, a, Approval(profile)).reply == Ok
    ensures a in s.applications && profile !in s.profiles
    ensures var app := s.applications[a];
      Review(s, a, Approval(profile)).state == s.(
        applications := s.applications[a :=
          Application(app.userId, Verified, app.personalInfo, app.license, app.vehicle, None)],
        profiles := s.profiles[profile := Profile(app.userId, a, false)],
        profileByUser := s.profileByUser[app.userId := profile],
        profileByApplication := s.profileByApplication[a := profile])
  {
  }

  // ------------------------------------------------------ Modes and flags

  /** Driver mode takes a profile; the mode is then set, and rider mode lowers the user's own flag and no other. */
  lemma SwitchEffect(s: State, user: UserId, mode: Mode)
    requires Schema(s) && RedisOk(s)
    ensures var r := SetActiveProfile(s, user, mode);
      && (r.reply == Forbidden <==> mode == DriverMode && user !in s.profileByUser)
      && (r.reply == NotFound <==> user !in s.users && (mode == DriverMode ==> user in s.profileByUser))
      && (r.reply == Ok <==> user in s.users && (mode == DriverMode ==> user in s.profileByUser))
      && (r.reply != Ok ==> r.state == s)
      && (r.reply == Ok ==>
            && OnlyFlags(s, r.state) && r.state.users == s.users[user := mode]
            && forall p :: p in s.profiles ==>
                 r.state.profiles[p].isOnline ==
                   (s.profiles[p].isOnline && !(mode == RiderMode && s.profiles[p].userId == user)))
  {
    if user in s.users && mode == RiderMode {
      var s1 := s.(users := s.users[user := mode]);
      FlagsKeepSchema(s, s1);
      forall u | u in s1.redis ensures CachedOk(s1, u) { assert CachedOk(s, u); }
      GoOfflineWorks(s1, user);
    }
    SwitchOnlyFlag(s, user, mode);
  }

  /** The online switch is for users in driver mode with a profile, and sets their own flag. */
  lemma OnlineEffect(s: State, user: UserId, online: bool)
    requires Schema(s) && RedisOk(s)
    ensures var r := SetOnlineStatus(s, user, online);
      var guarded := user in s.users && s.users[user] == DriverMode && user in s.profileByUser;
      && r.reply == (if guarded then Ok else Forbidden)
      && (!guarded ==> r.state == s)
      && (guarded ==>
            var p := s.profileByUser[user];
            && p in s.profiles
            && r.state == s.(profiles := s.profiles[p := s.profiles[p].(isOnline := online)], redis := r.state.redis))
  {
    LookupIsExact(s, user);
  }

  // -------------------------------------------------- Who moves applications

  /**
   * The steps that may move an application to another status, and on whose
   * authority: its applicant by starting again after a rejection, and by
   * submitting its steps while they are taken; an administrator by a verdict on
   * it while it is under review.
   */
  ghost predicate MayAdvance(s: State, step: Step, a: AppId, to: Status)
    requires a in s.applications
  {
    var app := s.applications[a];
    match step
    case DoStart(user, _) => to == NotStarted && app.userId == user && app.status == Rejected
    case DoPersonalInfo(user, _) => to == PersonalInfoSubmitted && app.userId == user && IsEditable(app.status)
    case DoLicense(user, _, mimetype) =>
      to == LicenseSubmitted && app.userId == user && IsEditable(app.status) && IsSupported(mimetype)
    case DoVehicle(user, vehicle, files) => to == UnderReview && VehicleFits(s, a, user, vehicle, files)
    case DoReview(b, Rejection(_)) => b == a && app.status == UnderReview && to == Rejected
    case DoReview(b, Approval(profile)) =>
      b == a && app.status == UnderReview && to == Verified && profile !in s.profiles
    case _ => false
  }

  lemma StartMovesIff(s: State, user: UserId, freshId: AppId, a: AppId, to: Status)
    requires Schema(s) && a in s.applications && to != s.applications[a].status
    ensures var s' := Start(s, user, freshId).state;
      && a in s'.applications
      && (s'.applications[a].status == to <==> MayAdvance(s, DoStart(user, freshId), a, to))
  {
    OwnIsIndexed(s, a, user);
  }

  lemma InfoMovesIff(s: State, user: UserId, info: string, a: AppId, to: Status)
    requires Schema(s) && a in s.applications && to != s.applications[a].status
    ensures var s' := SubmitPersonalInfo(s, user, info).state;
      && a in s'.applications
      && (s'.applications[a].status == to <==> MayAdvance(s, DoPersonalInfo(user, info), a, to))
  {
    EditableIff(s, a, user);
  }

  lemma LicenseMovesIff(s: State, user: UserId, license: string, mimetype: string, a: AppId, to: Status)
    requires Schema(s) && a in s.applications && to != s.applications[a].status
    ensures var s' := SubmitLicense(s, user, license, mimetype).state;
      && a in s'.applications
      && (s'.applications[a].status == to <==> MayAdvance(s, DoLicense(user, license, mimetype), a, to))
  {
    LicenseRepliesIff(s, user, license, mimetype);
    var r := SubmitLicense(s, user, license, mimetype);
    OwnIsIndexed(s, a, user);
    if r.reply == Ok {
      var b :| Owns(s, b, user) && IsEditable(s.applications[b].status);
      OwnIsIndexed(s, b, user);
      LicenseEffect(s, user, license, mimetype, b);
      OneMoves(s.applications, r.state.applications, b, a, to);
    }
  }

  lemma ApplicantMovesIff(s: State, step: Step, a: AppId, to: Status)
    requires Schema(s) && a in s.applications && to != s.applications[a].status
    requires step.DoStart? || step.DoPersonalInfo? || step.DoLicense?
    ensures a in Apply(s, step).applications
    ensures Apply(s, step).applications[a].status == to <==> MayAdvance(s, step, a, to)
  {
    match step
    case DoStart(user, freshId) => StartMovesIff(s, user, freshId, a, to);
    case DoPersonalInfo(user, info) => InfoMovesIff(s, user, info, a, to);
    case DoLicense(user, license, mimetype) => LicenseMovesIff(s, user, license, mimetype, a, to);
  }

  lemma VehicleMovesIff(s: State, user: UserId, vehicle: Vehicle, files: seq<Doc>, a: AppId, to: Status)
    requires Schema(s) && a in s.applications && to != s.applications[a].status
    ensures var s' := SubmitVehicle(s, user, vehicle, files).state;
      && a in s'.applications
      && (s'.applications[a].status == to <==> MayAdvance(s, DoVehicle(user, vehicle, files), a, to))
  {
    VehicleSucceedsIff(s, user, vehicle, files);
    if b :| VehicleFits(s, b, user, vehicle, files) {
      VehicleEffectOn(s, user, vehicle, files, b);
      VehicleFitsIff(s, a, user, vehicle, files);
      VehicleFitsIff(s, b, user, vehicle, files);
    }
  }

  lemma RejectionMovesIff(s: State, b: AppId, reason: string, a: AppId, to: Status)
    requires Schema(s) && a in s.applications && to != s.applications[a].status
    ensures var s' := Review(s, b, Rejection(reason)).state;
      && a in s'.applications
      && (s'.applications[a].status == to <==> b == a && s.applications[a].status == UnderReview && to == Rejected)
  {
    var r := Review(s, b, Rejection(reason));
    ReviewRefusals(s, b, Rejection(reason));
    if b in s.applications && s.applications[b].status == UnderReview {
      RejectionEffect(s, b, reason);
      OneMoves(s.applications, r.state.applications, b, a, to);
    } else {
      assert r.state == s;
    }
  }

  lemma OneMoves(before: map<AppId, Application>, after: map<AppId, Application>, b: AppId, a: AppId, to: Status)
    requires a in before && b in before && to != before[a].status
    requires b in after && after == before[b := after[b]]
    ensures a in after && (after[a].status == to <==> b == a && after[b].status == to)
  {
  }

  lemma ApprovalMovesIff(s: State, b: AppId, profile: ProfileId, a: AppId, to: Status)
    requires Chain(s) && a in s.applications && to != s.applications[a].status
    ensures var s' := Review(s, b, Approval(profile)).state;
      && a in s'.applications
      && (s'.applications[a].status == to <==>
            b == a && s.applications[a].status == UnderReview && to == Verified && profile !in s.profiles)
  {
    ReviewRefusals(s, b, Approval(profile));
    if Review(s, b, Approval(profile)).reply == Ok {
      ApprovalEffect(s, b, profile);
    } else if profile !in s.profiles {
      ReviewSucceedsIff(s, b, Approval(profile), Approval(profile));
    }
  }

  /** Level A, in every state of every run: an application takes another status exactly when MayAdvance says so. */
  lemma StatusMovesIff(s: State, step: Step, a: AppId, to: Status)
    requires Chain(s) && a in s.applications && to != s.applications[a].status
    ensures a in Apply(s, step).applications
    ensures Apply(s, step).applications[a].status == to <==> MayAdvance(s, step, a, to)
  {
    if step.DoStart? || step.DoPersonalInfo? || step.DoLicense? {
      ApplicantMovesIff(s, step, a, to);
    } else {
      match step
      case DoVehicle(user, vehicle, files) => VehicleMovesIff(s, user, vehicle, files, a, to);
      case DoOptional(_, _) =>
      case DoReview(b, Rejection(reason)) => RejectionMovesIff(s, b, reason, a, to);
      case DoReview(b, Approval(profile)) => ApprovalMovesIff(s, b, profile, a, to);
      case _ => ModeStepsOnlyFlag(s, step);
    }
  }
}
