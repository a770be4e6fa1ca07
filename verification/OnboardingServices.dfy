/**
 * The onboarding services as they run: objects that share one database and
 * cache and write it statement by statement. Every method is proved to be the
 * step of the same name in Onboarding, reply and whole state.
 */
module OnboardingServices {
  import opened Common
  import opened Documents
  import opened CacheModel
  import opened Onboarding
  import V = OnboardingInvariant
  import I = IdentityCache

  class Backend {
    var users: map<UserId, Mode>
    var applications: map<AppId, Application>
    var applicationByUser: map<UserId, AppId>
    var applicationByPlate: map<string, AppId>
    var documents: set<Slot>
    var profiles: map<ProfileId, Profile>
    var profileByUser: map<UserId, ProfileId>
    var profileByApplication: map<AppId, ProfileId>
    var redis: map<UserId, Raw<I.Identity>>

    ghost function View(): State
      reads this
    {
      State(users, applications, applicationByUser, applicationByPlate, documents,
            profiles, profileByUser, profileByApplication, redis)
    }

    ghost predicate Valid()
      reads this
    {
      Schema(View())
    }

    constructor ()
      ensures View() == INITIAL && Valid()
    {
      users, applications, applicationByUser, applicationByPlate := map[], map[], map[], map[];
      documents, profiles, profileByUser, profileByApplication, redis := {}, map[], map[], map[], map[];
    }

    /** driverApplication.update by id, of everything but the unique columns. */
    method UpdateApplication(a: AppId, app: Application)
      requires Valid() && a in applications
      requires app.userId == applications[a].userId && Plate(app) == Plate(applications[a])
      modifies this`applications
      ensures View() == SetApplication(old(View()), a, app) && Valid()
    {
      V.SameKeysKeepSchema(View(), a, app);
      applications := applications[a := app];
    }

    /** DriverDocumentsService.upload, for the one row it upserts. */
    method Upload(a: AppId, doc: Doc) returns (reply: Reply)
      requires Valid()
      modifies this`documents
      ensures reply == if doc.mimetype in ALLOWED_MIME_TYPES then Ok else BadRequest
      ensures View() == (if reply == Ok then PutDocument(old(View()), a, doc.kind) else old(View())) && Valid()
    {
      if doc.mimetype !in ALLOWED_MIME_TYPES {
        return BadRequest;
      }
      V.DocumentsKeepSchema(View(), documents + {Slot(a, doc.kind)});
      documents := documents + {Slot(a, doc.kind)};
      return Ok;
    }
  }

  class DriverApplicationService {
    const shared: Backend

    constructor (shared: Backend)
      ensures this.shared == shared
    {
      this.shared := shared;
    }

    method Start(user: UserId, freshId: AppId) returns (reply: Reply)
      requires shared.Valid()
      modifies shared
      ensures Outcome(shared.View(), reply) == Onboarding.Start(old(shared.View()), user, freshId) && shared.Valid()
    {
      if user !in shared.users {
        return Unauthorized;
      }
      if user !in shared.applicationByUser {
        if freshId in shared.applications {
          return UniqueViolation;
        }
        V.CreateKeepsSchema(shared.View(), freshId, user);
        shared.applications := shared.applications[freshId := Application(user, NotStarted, None, None, None, None)];
        shared.applicationByUser := shared.applicationByUser[user := freshId];
        return Ok;
      }
      var a := shared.applicationByUser[user];
      var existing := shared.applications[a];
      if existing.status == UnderReview || existing.status == Verified {
        return Conflict;
      }
      if existing.status == Rejected {
        shared.UpdateApplication(a, existing.(status := NotStarted, rejectionReason := None));
      }
      return Ok;
    }

    method LoadEditable(user: UserId) returns (r: Check<AppId>)
      requires shared.Valid()
      ensures r == Onboarding.LoadEditable(shared.View(), user)
    {
      if user !in shared.applicationByUser {
        return Fail(NotFound);
      }
      var a := shared.applicationByUser[user];
      if shared.applications[a].status == UnderReview || shared.applications[a].status == Verified {
        return Fail(Conflict);
      }
      if shared.applications[a].status == Rejected {
        return Fail(Conflict);
      }
      return Pass(a);
    }

    method SubmitPersonalInfo(user: UserId, info: string) returns (reply: Reply)
      requires shared.Valid()
      modifies shared
      ensures Outcome(shared.View(), reply) == Onboarding.SubmitPersonalInfo(old(shared.View()), user, info)
      ensures shared.Valid()
    {
      var found := LoadEditable(user);
      if found.Fail? {
        return found.reply;
      }
      var application := shared.applications[found.value];
      shared.UpdateApplication(found.value, application.(personalInfo := Some(info), status := PersonalInfoSubmitted));
      return Ok;
    }

    method SubmitLicense(user: UserId, license: string, mimetype: string) returns (reply: Reply)
      requires shared.Valid()
      modifies shared
      ensures Outcome(shared.View(), reply) == Onboarding.SubmitLicense(old(shared.View()), user, license, mimetype)
      ensures shared.Valid()
    {
      var found := LoadEditable(user);
      if found.Fail? {
        return found.reply;
      }
      var uploaded := shared.Upload(found.value, Doc(DriversLicense, mimetype));
      if uploaded != Ok {
        return uploaded;
      }
      var application := shared.applications[found.value];
      shared.UpdateApplication(found.value, application.(license := Some(license), status := LicenseSubmitted));
      return Ok;
    }

    method UploadFiles(a: AppId, files: seq<Doc>) returns (reply: Reply)
      requires shared.Valid()
      modifies shared`documents
      ensures Outcome(shared.View(), reply) == UploadAll(old(shared.View()), a, files) && shared.Valid()
    {
      var i := 0;
      while i < |files|
        invariant 0 <= i <= |files| && shared.Valid()
        invariant UploadAll(shared.View(), a, files[i..]) == UploadAll(old(shared.View()), a, files)
      {
        assert files[i..][0] == files[i] && files[i..][1..] == files[i + 1..];
        reply := shared.Upload(a, files[i]);
        if reply != Ok {
          return;
        }
        i := i + 1;
      }
      return Ok;
    }

    method SubmitVehicle(user: UserId, vehicle: Vehicle, files: seq<Doc>) returns (reply: Reply)
      requires shared.Valid()
      modifies shared
      ensures Outcome(shared.View(), reply) == Onboarding.SubmitVehicle(old(shared.View()), user, vehicle, files)
      ensures shared.Valid()
    {
      var found := LoadEditable(user);
      if found.Fail? {
        return found.reply;
      }
      var a := found.value;
      if vehicle.plateNumber in shared.applicationByPlate && shared.applicationByPlate[vehicle.plateNumber] != a {
        return Conflict;
      }
      V.UploadReplies(shared.View(), a, files);
      reply := UploadFiles(a, files);
      if reply != Ok {
        return;
      }
      var uploaded := UploadedTypes(a);
      if REQUIRED - uploaded != {} {
        return BadRequest;
      }
      SaveVehicle(a, vehicle);
    }

    method UploadedTypes(a: AppId) returns (types: set<DocType>)
      ensures forall kind :: kind in types <==> Slot(a, kind) in shared.documents
      ensures REQUIRED - types == {} <==> Complete(shared.View(), a)
    {
      types := set slot | slot in shared.documents && slot.app == a :: slot.kind;
      forall kind ensures kind in types <==> Slot(a, kind) in shared.documents {
        assert Slot(a, kind) in shared.documents ==> Slot(a, kind).app == a && Slot(a, kind).kind in types;
      }
      if REQUIRED - types == {} {
        forall kind | kind in REQUIRED ensures kind in types {
          assert kind !in REQUIRED - types;
        }
      }
    }

    /** driverApplication.update by id, with the unique plate. */
    method SaveVehicle(a: AppId, vehicle: Vehicle)
      requires shared.Valid() && a in shared.applications && !Refused(shared.View(), Commit.SaveVehicle(a, vehicle))
      modifies shared
      ensures shared.View() == Perform(old(shared.View()), Commit.SaveVehicle(a, vehicle)) && shared.Valid()
    {
      V.VehicleKeepsSchema(shared.View(), a, vehicle);
      var application := shared.applications[a];
      if application.vehicle.Some? {
        shared.applicationByPlate := shared.applicationByPlate - {application.vehicle.value.plateNumber};
      }
      shared.applicationByPlate := shared.applicationByPlate[vehicle.plateNumber := a];
      shared.applications := shared.applications[a := application.(vehicle := Some(vehicle), status := UnderReview)];
    }

    method UploadOptionalDocument(user: UserId, doc: Doc) returns (reply: Reply)
      requires shared.Valid()
      modifies shared
      ensures Outcome(shared.View(), reply) == UploadOptional(old(shared.View()), user, doc) && shared.Valid()
    {
      if doc.kind !in OPTIONAL {
        return BadRequest;
      }
      if user !in shared.applicationByUser {
        return NotFound;
      }
      reply := shared.Upload(shared.applicationByUser[user], doc);
    }

    method Review(a: AppId, verdict: Verdict) returns (reply: Reply)
      requires shared.Valid()
      modifies shared
      ensures Outcome(shared.View(), reply) == Onboarding.Review(old(shared.View()), a, verdict) && shared.Valid()
    {
      if a !in shared.applications {
        return NotFound;
      }
      var application := shared.applications[a];
      if application.status != UnderReview {
        return Conflict;
      }
      match verdict
      case Rejection(reason) =>
        shared.UpdateApplication(a, application.(status := Rejected, rejectionReason := Some(reason)));
        return Ok;
      case Approval(profile) =>
        reply := Approve(a, profile);
    }

    /** The transaction: refused as a whole when the profile row clashes. */
    method Approve(a: AppId, profile: ProfileId) returns (reply: Reply)
      requires shared.Valid() && a in shared.applications
      modifies shared
      ensures var c := Commit.Approve(a, old(shared.applications[a].userId), profile);
        Outcome(shared.View(), reply) == Write(old(shared.View()), c) && shared.Valid()
    {
      var application := shared.applications[a];
      var user := application.userId;
      V.ApproveKeepsSchema(shared.View(), a, user, profile);
      if profile in shared.profiles || user in shared.profileByUser || a in shared.profileByApplication {
        return UniqueViolation;
      }
      shared.applications := shared.applications[a := application.(status := Verified, rejectionReason := None)];
      shared.profiles := shared.profiles[profile := Profile(user, a, false)];
      shared.profileByUser := shared.profileByUser[user := profile];
      shared.profileByApplication := shared.profileByApplication[a := profile];
      return Ok;
    }
  }

  class DriversService {
    const shared: Backend

    constructor (shared: Backend)
      ensures this.shared == shared
    {
      this.shared := shared;
    }

    method FindIdentityByUserId(user: UserId) returns (identity: Option<I.Identity>)
      requires shared.Valid()
      modifies shared`redis
      ensures (shared.View(), identity) == FindIdentity(old(shared.View()), user) && shared.Valid()
    {
      V.LookupOnlyFlag(shared.View(), user);
      if user in shared.redis && shared.redis[user].Json? {
        return Some(shared.redis[user].value);
      }
      identity := if user in shared.profileByUser then Some(I.Identity(shared.profileByUser[user], user)) else None;
      shared.redis := shared.redis[user := Stringify(identity)];
    }

    /** driverProfile.update by its unique user. */
    method UpdateOnline(user: UserId, online: bool) returns (reply: Reply)
      requires shared.Valid()
      modifies shared`profiles
      ensures Outcome(shared.View(), reply) == WriteOnline(old(shared.View()), user, online) && shared.Valid()
    {
      if user !in shared.profileByUser {
        return NotFound;
      }
      V.OnlineOnlyFlag(shared.View(), user, online);
      V.FlagsKeepSchema(shared.View(), WriteOnline(shared.View(), user, online).state);
      var p := shared.profileByUser[user];
      shared.profiles := shared.profiles[p := shared.profiles[p].(isOnline := online)];
      return Ok;
    }

    /** The route's guard, then the service call. */
    method SetOnlineStatus(user: UserId, online: bool) returns (reply: Reply)
      requires shared.Valid()
      modifies shared
      ensures Outcome(shared.View(), reply) == Onboarding.SetOnlineStatus(old(shared.View()), user, online)
      ensures shared.Valid()
    {
      if user !in shared.users || shared.users[user] != DriverMode || user !in shared.profileByUser {
        return Forbidden;
      }
      var identity := FindIdentityByUserId(user);
      if identity.None? {
        return NotFound;
      }
      reply := UpdateOnline(user, online);
    }

    method GoOffline(user: UserId) returns (reply: Reply)
      requires shared.Valid()
      modifies shared
      ensures Outcome(shared.View(), reply) == Onboarding.GoOffline(old(shared.View()), user) && shared.Valid()
    {
      var identity := FindIdentityByUserId(user);
      if identity.None? {
        return Ok;
      }
      reply := UpdateOnline(user, false);
    }
  }

  class UsersService {
    const shared: Backend
    const driversService: DriversService

    constructor (driversService: DriversService)
      ensures this.driversService == driversService && shared == driversService.shared
    {
      this.driversService := driversService;
      this.shared := driversService.shared;
    }

    method SetActiveProfile(user: UserId, mode: Mode) returns (reply: Reply)
      requires shared == driversService.shared && shared.Valid()
      modifies shared
      ensures Outcome(shared.View(), reply) == Onboarding.SetActiveProfile(old(shared.View()), user, mode)
      ensures shared.Valid()
    {
      if mode == DriverMode && user !in shared.profileByUser {
        return Forbidden;
      }
      if user !in shared.users {
        return NotFound;
      }
      V.FlagsKeepSchema(shared.View(), shared.View().(users := shared.users[user := mode]));
      shared.users := shared.users[user := mode];
      if mode == RiderMode {
        reply := driversService.GoOffline(user);
      } else {
        reply := Ok;
      }
    }
  }
}
