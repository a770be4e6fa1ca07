/**
 * The tables of the ride negotiation, and every database read and transaction
 * of the services that share them, one function each. A service call is a
 * short sequence of these functions: `SubmitOffer`, `AcceptOffer`, ... compose
 * them without interference (a call is one step), and module RideInterleaving
 * runs them one at a time (calls interleave between any two of them).
 */
module RideModel {
  import opened Common

  // ---------------------------------------------------------------- Tables

  type UserId = nat
  type ProfileId = nat
  type RideId = nat
  type TripId = nat
  type Millis = nat

  datatype Mode = RiderMode | DriverMode
  datatype RideStatus = RidePending | RideMatched | RideInProgress | RideCompleted | RideCancelled
  datatype OfferStatus = OfferPending | OfferAccepted | OfferRejected | OfferExpired
  datatype TripStatus = TripMatched | TripStarted | TripCompleted | TripCancelled

  datatype Profile = Profile(userId: UserId, isOnline: bool)
  datatype Ride = Ride(riderId: UserId, suggestedFare: real, status: RideStatus, cancelReason: Option<string>)

  /**
   * An offer row is unique per ride and driver profile, it is upserted through
   * that pair and never deleted, so the pair names the row.
   */
  datatype OfferId = OfferId(ride: RideId, driver: ProfileId)
  datatype Offer = Offer(fare: real, status: OfferStatus)
  datatype Trip = Trip(rideId: RideId, driverId: UserId, riderId: UserId, agreedFare: real,
                       status: TripStatus, cancelReason: Option<string>)

  /** Ids of the delayed jobs in the offer-expiry queue. */
  datatype Job = ExpireOffer(offer: OfferId) | ExpireDriverOffers(driver: ProfileId)

  /** History: committed upserts and accepts, and the domain events emitted. */
  datatype Entry =
    | Submitted(offer: OfferId, fare: real, at: Millis)
    | Accepted(offer: OfferId, trip: TripId)
    | OfferSubmittedEvent(offer: OfferId, rider: UserId)
    | OfferAcceptedEvent(offer: OfferId, trip: TripId, rejectedDrivers: set<UserId>)
    | OfferExpiredEvent(offer: OfferId, driver: UserId)
    | RideCancelledEvent(ride: RideId, affectedDrivers: set<UserId>)
    | TripStartedEvent(trip: TripId)
    | TripCompletedEvent(trip: TripId)

  /** The tables. */
  datatype Db = Db(
    users: map<UserId, Mode>,
    profiles: map<ProfileId, Profile>,
    profileByUser: map<UserId, ProfileId>,  // unique index of profiles
    rides: map<RideId, Ride>,
    offers: map<OfferId, Offer>,
    trips: map<TripId, Trip>,
    tripByRide: map<RideId, TripId>)        // unique index of trips

  datatype State = State(
    db: Db,
    jobs: map<Job, Millis>,   // waiting jobs and the time each falls due
    held: map<Job, nat>,      // jobs a worker has locked, and its lock
    finished: set<Job>,       // jobs done with, whose ids the queue keeps
    now: Millis,
    expirySeconds: nat,       // OFFER_EXPIRY_SECONDS
    log: seq<Entry>)

  datatype Outcome = Outcome(state: State, reply: Reply)

  /** The unique indexes list exactly the rows they index. */
  ghost predicate Indexed(d: Db) {
    && (forall p :: p in d.profiles ==>
          d.profiles[p].userId in d.profileByUser && d.profileByUser[d.profiles[p].userId] == p)
    && (forall u :: u in d.profileByUser ==>
          d.profileByUser[u] in d.profiles && d.profiles[d.profileByUser[u]].userId == u)
    && (forall t :: t in d.trips ==> d.trips[t].rideId in d.tripByRide && d.tripByRide[d.trips[t].rideId] == t)
    && (forall r :: r in d.tripByRide ==> d.tripByRide[r] in d.trips && d.trips[d.tripByRide[r]].rideId == r)
  }

  /** Unique indexes, and the foreign keys among rides, offers, profiles and trips; RidePeople has those to users. */
  ghost predicate Schema(d: Db) {
    && Indexed(d)
    && (forall o :: o in d.offers ==> o.ride in d.rides && o.driver in d.profiles)
    && (forall t :: t in d.trips ==> d.trips[t].rideId in d.rides)
  }

  // --------------------------------------------------------------- Lookups

  /** Finds the profile by its unique user. */
  function ProfileOf(d: Db, user: UserId): Option<ProfileId> {
    if user in d.profileByUser then Some(d.profileByUser[user]) else None
  }

  /** Finds the trip by its unique ride. */
  function TripOf(d: Db, ride: RideId): Option<TripId> {
    if ride in d.tripByRide then Some(d.tripByRide[ride]) else None
  }

  function PendingFor(offers: map<OfferId, Offer>, ride: RideId): set<OfferId> {
    set o | o in offers && o.ride == ride && offers[o].status == OfferPending
  }

  function PendingBy(offers: map<OfferId, Offer>, driver: ProfileId): set<OfferId> {
    set o | o in offers && o.driver == driver && offers[o].status == OfferPending
  }

  function Expire(offers: map<OfferId, Offer>, which: set<OfferId>): map<OfferId, Offer> {
    map o | o in offers :: if o in which then offers[o].(status := OfferExpired) else offers[o]
  }

  /** The user accounts behind the drivers of some offers. */
  function DriverUsers(d: Db, offers: set<OfferId>): set<UserId>
    requires forall o :: o in offers ==> o.driver in d.profiles
  {
    set o | o in offers :: d.profiles[o.driver].userId
  }

  /** The rows of a ride, and all profiles, are the same in both databases. */
  ghost predicate SameRows(d: Db, e: Db, r: RideId) {
    && r in d.rides && r in e.rides
    && d.rides[r] == e.rides[r]
    && TripOf(d, r) == TripOf(e, r)
    && (TripOf(d, r).Some? ==>
          && TripOf(d, r).value in d.trips && TripOf(e, r).value in e.trips
          && d.trips[TripOf(d, r).value] == e.trips[TripOf(e, r).value])
    && (forall p :: OfferId(r, p) in d.offers || OfferId(r, p) in e.offers ==>
          && OfferId(r, p) in d.offers && OfferId(r, p) in e.offers
          && d.offers[OfferId(r, p)] == e.offers[OfferId(r, p)])
    && d.profileByUser == e.profileByUser
  }

  /** Everything about rides other than one is the same in both databases. */
  ghost predicate OnlyRideChanged(d: Db, e: Db, ride: RideId) {
    && d.rides.Keys == e.rides.Keys
    && forall r :: r in d.rides && r != ride ==> SameRows(d, e, r)
  }

  /** Rows are never deleted, and keys, owners and agreed fares never change. */
  ghost predicate Grows(d: Db, e: Db) {
    && (forall r :: r in d.rides ==> r in e.rides && e.rides[r].riderId == d.rides[r].riderId)
    && (forall p :: p in d.profiles ==> p in e.profiles && e.profiles[p].userId == d.profiles[p].userId)
    && (forall u :: u in d.profileByUser ==> u in e.profileByUser && e.profileByUser[u] == d.profileByUser[u])
    && (forall o :: o in d.offers ==> o in e.offers)
    && (forall t :: t in d.trips ==> t in e.trips && SameDeal(d.trips[t], e.trips[t]))
  }

  predicate SameDeal(t: Trip, u: Trip) {
    t.rideId == u.rideId && t.driverId == u.driverId && t.riderId == u.riderId && t.agreedFare == u.agreedFare
  }

  /** ActiveProfileGuard: the mode must match, and driver mode needs a profile. */
  predicate CanActivate(d: Db, user: UserId, required: Mode) {
    && user in d.users
    && d.users[user] == required
    && (required == DriverMode ==> ProfileOf(d, user).Some?)
  }

  // ----------------------------------------------------------------- Queue

  /** The queue still has the id: the job waits, is in a worker's hands, or is done. */
  predicate IsKnown(s: State, job: Job) {
    job in s.jobs || job in s.held || job in s.finished
  }

  function Due(s: State): Millis {
    s.now + s.expirySeconds * 1000
  }

  /** Adding a job whose id the queue still has is a no-op. */
  function AddJob(s: State, job: Job): State {
    if IsKnown(s, job) then s else s.(jobs := s.jobs[job := Due(s)])
  }

  /** Jobs of offers are removed wherever they are, except from a worker that holds one: that fails in silence. */
  function Unschedule(s: State, offers: set<OfferId>): State {
    var free := set o | o in offers && ExpireOffer(o) !in s.held :: ExpireOffer(o);
    s.(jobs := s.jobs - free, finished := s.finished - free)
  }

  function Schedule(s: State, offer: OfferId): State {
    AddJob(s, ExpireOffer(offer))
  }

  function ScheduleDriver(s: State, driver: ProfileId): State {
    AddJob(s, ExpireDriverOffers(driver))
  }

  /** A worker locks a waiting job. */
  function Take(s: State, job: Job, worker: nat): State {
    s.(jobs := s.jobs - {job}, held := s.held[job := worker])
  }

  /** The job is done; the queue keeps its id. */
  function Settle(s: State, job: Job): State {
    s.(jobs := s.jobs - {job}, held := s.held - {job}, finished := s.finished + {job})
  }

  /** A committed transaction and the entry that records or announces it. */
  function Write(s: State, db: Db, e: Entry): State {
    s.(db := db, log := s.log + [e])
  }

  function Emit(s: State, e: Entry): State {
    s.(log := s.log + [e])
  }

  // ---------------------------------------------------------- Table writes

  function UpdateOffer(d: Db, offer: OfferId, status: OfferStatus): Db
    requires offer in d.offers
  {
    d.(offers := d.offers[offer := d.offers[offer].(status := status)])
  }

  function ExpireOffers(d: Db, which: set<OfferId>): Db {
    d.(offers := Expire(d.offers, which))
  }

  function UpdateRide(d: Db, ride: RideId, status: RideStatus): Db
    requires ride in d.rides
  {
    d.(rides := d.rides[ride := d.rides[ride].(status := status)])
  }

  function CreateTrip(d: Db, trip: TripId, row: Trip): Db
    requires trip !in d.trips && row.rideId in d.rides && row.rideId !in d.tripByRide
  {
    d.(trips := d.trips[trip := row], tripByRide := d.tripByRide[row.rideId := trip])
  }

  function UpdateTrip(d: Db, trip: TripId, status: TripStatus): Db
    requires trip in d.trips
  {
    d.(trips := d.trips[trip := d.trips[trip].(status := status)])
  }

  // ------------------------------------------------------ Reads and commits

  function CheckRideOpen(d: Db, ride: RideId): Check<UserId> {
    if ride !in d.rides then Fail(NotFound)
    else if d.rides[ride].status != RidePending then Fail(BadRequest)
    else Pass(d.rides[ride].riderId)
  }

  function CommitUpsert(d: Db, offer: OfferId, fare: real): Db
    requires offer.ride in d.rides && offer.driver in d.profiles
  {
    d.(offers := d.offers[offer := Offer(fare, OfferPending)])
  }

  /** What acceptOffer remembers of its read. */
  datatype AcceptTicket = AcceptTicket(offer: OfferId, fare: real, driver: UserId, rider: UserId)

  function CheckAccept(d: Db, rider: UserId, offer: OfferId): Check<AcceptTicket>
    requires Schema(d)
  {
    if offer !in d.offers then Fail(NotFound)
    else if d.rides[offer.ride].riderId != rider then Fail(Forbidden)
    else if d.rides[offer.ride].status != RidePending || d.offers[offer].status != OfferPending then Fail(BadRequest)
    else Pass(AcceptTicket(offer, d.offers[offer].fare, d.profiles[offer.driver].userId, rider))
  }

  /** Still true of the ticket after any other commit, all its facts being immutable. */
  predicate AcceptTicketHolds(d: Db, k: AcceptTicket) {
    && k.offer in d.offers && k.offer.ride in d.rides && k.offer.driver in d.profiles
    && k.driver in d.profileByUser && d.profileByUser[k.driver] == k.offer.driver
    && k.rider == d.rides[k.offer.ride].riderId
  }

  function OtherPending(d: Db, offer: OfferId): set<OfferId> {
    PendingFor(d.offers, offer.ride) - {offer}
  }

  predicate AcceptClashes(d: Db, k: AcceptTicket, trip: TripId) {
    k.offer !in d.offers || trip in d.trips || TripOf(d, k.offer.ride).Some?
  }

  /** The accept transaction: four writes, or none when a row clashes. */
  function CommitAccept(d: Db, k: AcceptTicket, trip: TripId): Db
    requires k.offer.ride in d.rides
  {
    if AcceptClashes(d, k, trip) then d else
    var accepted := UpdateOffer(d, k.offer, OfferAccepted);
    var settled := ExpireOffers(accepted, PendingFor(accepted.offers, k.offer.ride) - {k.offer});
    var matched := UpdateRide(settled, k.offer.ride, RideMatched);
    CreateTrip(matched, trip, Trip(k.offer.ride, k.driver, k.rider, k.fare, TripMatched, None))
  }

  /** What cancel remembers of its read. */
  datatype CancelTicket = CancelTicket(ride: RideId, trip: Option<TripId>, affected: set<UserId>)

  predicate CancelTicketHolds(d: Db, k: CancelTicket) {
    && k.ride in d.rides
    && (k.trip.Some? ==> k.trip.value in d.trips && d.trips[k.trip.value].rideId == k.ride)
  }

  /** assertCanCancel: the owner, or the driver of the trip. */
  predicate CanCancel(d: Db, ride: RideId, user: UserId)
    requires ride in d.rides
  {
    var trip := TripOf(d, ride);
    d.rides[ride].riderId == user || (trip.Some? && trip.value in d.trips && d.trips[trip.value].driverId == user)
  }

  /** assertCanView: additionally, any driver with an offer on the ride. */
  predicate CanView(d: Db, ride: RideId, user: UserId)
    requires Schema(d) && ride in d.rides
  {
    || CanCancel(d, ride, user)
    || exists o :: o in d.offers && o.ride == ride && d.profiles[o.driver].userId == user
  }

  function CheckCancel(d: Db, ride: RideId, user: UserId): Check<CancelTicket>
    requires Schema(d)
  {
    if ride !in d.rides then Fail(NotFound)
    else if !CanCancel(d, ride, user) then Fail(Forbidden)
    else if d.rides[ride].status != RidePending && d.rides[ride].status != RideMatched then Fail(BadRequest)
    else Pass(CancelTicket(ride, TripOf(d, ride), DriverUsers(d, PendingFor(d.offers, ride))))
  }

  /** An absent value leaves the column as it is. */
  function Overwrite(current: Option<string>, given: Option<string>): Option<string> {
    if given.Some? then given else current
  }

  function CommitCancel(d: Db, k: CancelTicket, reason: Option<string>): Db
    requires CancelTicketHolds(d, k)
  {
    var ride := d.rides[k.ride];
    var ended := ride.(status := RideCancelled, cancelReason := Overwrite(ride.cancelReason, reason));
    var cancelled := d.(rides := d.rides[k.ride := ended]);
    var settled := ExpireOffers(cancelled, PendingFor(cancelled.offers, k.ride));
    if k.trip.None? then settled else
    var trip := settled.trips[k.trip.value];
    var over := trip.(status := TripCancelled, cancelReason := Overwrite(trip.cancelReason, reason));
    settled.(trips := settled.trips[k.trip.value := over])
  }

  /** findOwnedByDriver followed by the status test of start and complete. */
  function CheckTrip(d: Db, trip: TripId, driver: UserId, expected: TripStatus): Check<RideId> {
    if trip !in d.trips then Fail(NotFound)
    else if d.trips[trip].driverId != driver then Fail(Forbidden)
    else if d.trips[trip].status != expected then Fail(BadRequest)
    else Pass(d.trips[trip].rideId)
  }

  /** Both writes of start and of complete: the trip, then its ride, by id. */
  function CommitTrip(d: Db, trip: TripId, ride: RideId, t: TripStatus, r: RideStatus): Db
    requires trip in d.trips && ride in d.rides
  {
    UpdateRide(UpdateTrip(d, trip, t), ride, r)
  }

  predicate IsPending(d: Db, offer: OfferId) {
    offer in d.offers && d.offers[offer].status == OfferPending
  }

  function CommitExpire(d: Db, offer: OfferId): Db
    requires offer in d.offers
  {
    UpdateOffer(d, offer, OfferExpired)
  }

  predicate DriverIsAway(d: Db, driver: ProfileId) {
    driver in d.profiles && !d.profiles[driver].isOnline
  }

  function CommitExpireDriver(d: Db, driver: ProfileId): Db {
    ExpireOffers(d, PendingBy(d.offers, driver))
  }

  /** The writes a call may still have to make, with what it remembers of its reads. */
  datatype Commit =
    | Upsert(offer: OfferId, fare: real)
    | Accept(accept: AcceptTicket, trip: TripId)
    | Cancel(cancel: CancelTicket, reason: Option<string>)
    | Start(trip: TripId, ride: RideId)
    | Complete(trip: TripId, ride: RideId)
    | ExpireOne(offer: OfferId)
    | ExpireAll(driver: ProfileId)

  /** The remembered facts that no other commit can change. */
  predicate Holds(d: Db, c: Commit) {
    match c
    case Upsert(offer, _) => offer.ride in d.rides && offer.driver in d.profiles
    case Accept(k, _) => AcceptTicketHolds(d, k)
    case Cancel(k, _) => CancelTicketHolds(d, k)
    case Start(trip, ride) => ride in d.rides && trip in d.trips && d.trips[trip].rideId == ride
    case Complete(trip, ride) => ride in d.rides && trip in d.trips && d.trips[trip].rideId == ride
    case ExpireOne(offer) => offer in d.offers
    case ExpireAll(_) => true
  }

  function Perform(d: Db, c: Commit): Db
    requires Holds(d, c)
  {
    match c
    case Upsert(offer, fare) => CommitUpsert(d, offer, fare)
    case Accept(k, trip) => CommitAccept(d, k, trip)
    case Cancel(k, reason) => CommitCancel(d, k, reason)
    case Start(trip, ride) => CommitTrip(d, trip, ride, TripStarted, RideInProgress)
    case Complete(trip, ride) => CommitTrip(d, trip, ride, TripCompleted, RideCompleted)
    case ExpireOne(offer) => CommitExpire(d, offer)
    case ExpireAll(driver) => CommitExpireDriver(d, driver)
  }

  // ------------------------------------------------------ Calls as one step

  function CreateRide(s: State, id: RideId, rider: UserId, suggestedFare: real): Outcome {
    if id in s.db.rides then Outcome(s, UniqueViolation)
    else Outcome(s.(db := s.db.(rides := s.db.rides[id := Ride(rider, suggestedFare, RidePending, None)])), Ok)
  }

  function SubmitOffer(s: State, driver: UserId, ride: RideId, fare: real): Outcome
    requires Schema(s.db)
  {
    var profile := ProfileOf(s.db, driver);
    if profile.None? then Outcome(s, NotFound) else
    match CheckRideOpen(s.db, ride)
    case Fail(reply) => Outcome(s, reply)
    case Pass(rider) =>
      var offer := OfferId(ride, profile.value);
      var s1 := Write(s, CommitUpsert(s.db, offer, fare), Submitted(offer, fare, s.now));
      Outcome(Emit(Schedule(Unschedule(s1, {offer}), offer), OfferSubmittedEvent(offer, rider)), Ok)
  }

  function AcceptOffer(s: State, rider: UserId, offer: OfferId, trip: TripId): Outcome
    requires Schema(s.db)
  {
    match CheckAccept(s.db, rider, offer)
    case Fail(reply) => Outcome(s, reply)
    case Pass(k) =>
      var others := OtherPending(s.db, offer);
      if AcceptClashes(s.db, k, trip) then Outcome(s, UniqueViolation) else
      var s1 := Write(s, CommitAccept(s.db, k, trip), Accepted(offer, trip));
      Outcome(Emit(Unschedule(s1, {offer} + others), OfferAcceptedEvent(offer, trip, DriverUsers(s.db, others))), Ok)
  }

  function CancelRide(s: State, ride: RideId, user: UserId, reason: Option<string>): Outcome
    requires Schema(s.db)
  {
    match CheckCancel(s.db, ride, user)
    case Fail(reply) => Outcome(s, reply)
    case Pass(k) => Outcome(Write(s, CommitCancel(s.db, k, reason), RideCancelledEvent(ride, k.affected)), Ok)
  }

  function StartTrip(s: State, trip: TripId, user: UserId): Outcome
    requires Schema(s.db)
  {
    if !CanActivate(s.db, user, DriverMode) then Outcome(s, Forbidden) else
    match CheckTrip(s.db, trip, user, TripMatched)
    case Fail(reply) => Outcome(s, reply)
    case Pass(ride) =>
      Outcome(Write(s, CommitTrip(s.db, trip, ride, TripStarted, RideInProgress), TripStartedEvent(trip)), Ok)
  }

  function CompleteTrip(s: State, trip: TripId, user: UserId): Outcome
    requires Schema(s.db)
  {
    if !CanActivate(s.db, user, DriverMode) then Outcome(s, Forbidden) else
    match CheckTrip(s.db, trip, user, TripStarted)
    case Fail(reply) => Outcome(s, reply)
    case Pass(ride) =>
      Outcome(Write(s, CommitTrip(s.db, trip, ride, TripCompleted, RideCompleted), TripCompletedEvent(trip)), Ok)
  }

  /** The processor's two job handlers. */
  function Process(s: State, job: Job): State
    requires Schema(s.db)
  {
    match job
    case ExpireOffer(offer) =>
      if IsPending(s.db, offer)
      then Write(s, CommitExpire(s.db, offer), OfferExpiredEvent(offer, s.db.profiles[offer.driver].userId))
      else s
    case ExpireDriverOffers(driver) =>
      if DriverIsAway(s.db, driver) then s.(db := CommitExpireDriver(s.db, driver)) else s
  }

  function SetOnlineFlag(d: Db, driver: ProfileId, online: bool): Db
    requires driver in d.profiles
  {
    d.(profiles := d.profiles[driver := d.profiles[driver].(isOnline := online)])
  }

  /** DriversService.goOffline once it has found the profile. */
  function GoOffline(s: State, driver: ProfileId): State
    requires driver in s.db.profiles
  {
    ScheduleDriver(s.(db := SetOnlineFlag(s.db, driver, false)), driver)
  }

  // ---------------------------------------------------------- Whole system

  /** Everything that can happen, calls being single steps. Ids are the fresh ids drawn. */
  datatype Step =
    | DoCreateRide(id: RideId, rider: UserId, suggestedFare: real)
    | DoSubmit(driver: UserId, ride: RideId, fare: real)
    | DoAccept(rider: UserId, offer: OfferId, trip: TripId)
    | DoCancel(ride: RideId, user: UserId, reason: Option<string>)
    | DoStart(trip: TripId, user: UserId)
    | DoComplete(trip: TripId, user: UserId)
    | DoJob(job: Job)                                  // a waiting job that is due
    | Tick(to: Millis)
    | Elsewhere(other: OtherStep)

  /** The calls that take several steps; the others are single writes. */
  predicate IsCall(step: Step) {
    step.DoSubmit? || step.DoAccept? || step.DoCancel? || step.DoStart? || step.DoComplete? || step.DoJob?
  }

  /** Steps of the services that own users and profiles. */
  datatype OtherStep =
    | Register(user: UserId)
    | Verify(profile: ProfileId, user: UserId)         // an approved application
    | SwitchMode(user: UserId, mode: Mode)
    | SetOnline(profile: ProfileId, online: bool)
    | Disconnect(profile: ProfileId)

  function OtherTables(d: Db, step: OtherStep): (e: Db)
    ensures e.rides == d.rides && e.offers == d.offers && e.trips == d.trips && e.tripByRide == d.tripByRide
  {
    match step
    case Register(user) =>
      if user in d.users then d else d.(users := d.users[user := RiderMode])
    case Verify(profile, user) =>
      if profile in d.profiles || user !in d.users || user in d.profileByUser then d
      else d.(profiles := d.profiles[profile := Profile(user, false)],
              profileByUser := d.profileByUser[user := profile])
    case SwitchMode(user, mode) =>
      if user in d.users && (mode == DriverMode ==> user in d.profileByUser)
      then d.(users := d.users[user := mode]) else d
    case SetOnline(profile, online) => if profile in d.profiles then SetOnlineFlag(d, profile, online) else d
    case Disconnect(profile) => if profile in d.profiles then SetOnlineFlag(d, profile, false) else d
  }

  function ApplyOther(s: State, step: OtherStep): (r: State)
    ensures r.db == OtherTables(s.db, step) && r.now == s.now && r.log == s.log
  {
    if step.Disconnect? && step.profile in s.db.profiles then GoOffline(s, step.profile)
    else s.(db := OtherTables(s.db, step))
  }

  function Apply(s: State, step: Step): State
    requires Schema(s.db)
  {
    match step
    case DoCreateRide(id, rider, fare) =>
      if CanActivate(s.db, rider, RiderMode) then CreateRide(s, id, rider, fare).state else s
    case DoSubmit(driver, ride, fare) => SubmitOffer(s, driver, ride, fare).state
    case DoAccept(rider, offer, trip) => AcceptOffer(s, rider, offer, trip).state
    case DoCancel(ride, user, reason) => CancelRide(s, ride, user, reason).state
    case DoStart(trip, user) => StartTrip(s, trip, user).state
    case DoComplete(trip, user) => CompleteTrip(s, trip, user).state
    case DoJob(job) =>
      if job in s.jobs && s.jobs[job] <= s.now then Settle(Process(s, job), job) else s
    case Tick(to) => if to >= s.now then s.(now := to) else s
    case Elsewhere(other) => ApplyOther(s, other)
  }

  function Initial(expirySeconds: nat): State {
    State(Db(map[], map[], map[], map[], map[], map[], map[]), map[], map[], {}, 0, expirySeconds, [])
  }
}
