/**
 * What every run keeps when calls are single steps (a call and its route
 * guard happen without interference): the coupling of rides, offers and
 * trips, the progress of a ride, and the agreement of the announcements
 * with their effects.
 */
module RideInvariant {
  import opened Common
  import opened RideModel

  // -------------------------------------------------------------- Coupling

  function RideStatusOf(t: TripStatus): RideStatus {
    match t
    case TripMatched => RideMatched
    case TripStarted => RideInProgress
    case TripCompleted => RideCompleted
    case TripCancelled => RideCancelled
  }

  predicate IsAccepted(d: Db, o: OfferId) {
    o in d.offers && d.offers[o].status == OfferAccepted
  }

  /** The statuses of a ride with no trip. */
  predicate Tripless(r: RideStatus) {
    r == RidePending || r == RideCancelled
  }

  /** The offer a trip came from: its ride's, by the profile of its driver. */
  function OfferOf(d: Db, t: Trip): Option<OfferId> {
    if t.driverId in d.profileByUser then Some(OfferId(t.rideId, d.profileByUser[t.driverId])) else None
  }

  /** A trip goes with its ride's status and rider, and its accepted offer's driver and fare. */
  ghost predicate TripAgrees(d: Db, r: Ride, t: Trip) {
    && r.status == RideStatusOf(t.status)
    && r.riderId == t.riderId
    && OfferOf(d, t).Some?
    && IsAccepted(d, OfferOf(d, t).value)
    && d.offers[OfferOf(d, t).value].fare == t.agreedFare
  }

  ghost predicate RideCoupled(d: Db, r: RideId)
    requires r in d.rides
  {
    match TripOf(d, r)
    case None =>
      && Tripless(d.rides[r].status)
      && (forall p :: !IsAccepted(d, OfferId(r, p)))
      && (d.rides[r].status == RideCancelled ==> forall p :: !IsPending(d, OfferId(r, p)))
    case Some(t) =>
      && t in d.trips && d.trips[t].rideId == r && TripAgrees(d, d.rides[r], d.trips[t])
      && (forall p :: IsAccepted(d, OfferId(r, p)) ==> OfferOf(d, d.trips[t]) == Some(OfferId(r, p)))
      && (forall p :: !IsPending(d, OfferId(r, p)))
  }

  ghost predicate Coupled(d: Db) {
    && Schema(d)
    && forall r {:trigger RideCoupled(d, r)} :: r in d.rides ==> RideCoupled(d, r)
  }

  lemma SameRowsSameCoupling(d: Db, e: Db, r: RideId)
    requires SameRows(d, e, r) && RideCoupled(d, r)
    ensures RideCoupled(e, r)
  {
  }

  // ------------------------------------------------- Commits and coupling

  /** The status changes a ride is meant to make. */
  predicate LegalMove(a: RideStatus, b: RideStatus) {
    || a == b
    || (a == RidePending && (b == RideMatched || b == RideCancelled))
    || (a == RideMatched && (b == RideInProgress || b == RideCancelled))
    || (a == RideInProgress && b == RideCompleted)
  }

  ghost predicate LegalMoves(d: Db, e: Db) {
    forall r :: r in d.rides ==> r in e.rides && LegalMove(d.rides[r].status, e.rides[r].status)
  }

  /** A commit took the tables from one coupled state to another, moving rides legally. */
  ghost predicate Sound(d: Db, e: Db) {
    Coupled(e) && LegalMoves(d, e)
  }

  /** The one ride a commit touches is left coupled, by a legal move. */
  ghost predicate MovedWell(d: Db, e: Db, ride: RideId)
    requires ride in d.rides
  {
    ride in e.rides && RideCoupled(e, ride) && LegalMove(d.rides[ride].status, e.rides[ride].status)
  }

  /** A commit that touches one ride is judged on that ride alone. */
  lemma OneRideDecides(d: Db, e: Db, ride: RideId)
    requires Coupled(d) && Schema(e) && OnlyRideChanged(d, e, ride) && ride in d.rides
    ensures Sound(d, e) <==> MovedWell(d, e, ride)
  {
    forall r | r in d.rides && r != ride ensures RideCoupled(e, r) {
      SameRowsSameCoupling(d, e, r);
    }
  }

  /**
   * The ride is in a state the write fits. This is wider than what the call
   * checks: an upsert wants a PENDING ride; an accept that too, and the fare it
   * read, unless the trip row clashes; a cancellation a PENDING or CANCELLED
   * ride, or a MATCHED one whose trip it read; a start a MATCHED or IN_PROGRESS
   * ride; a completion an IN_PROGRESS or COMPLETED one; an expiry any offer but
   * an ACCEPTED one.
   */
  predicate Intact(d: Db, c: Commit)
    requires Schema(d) && Holds(d, c)
  {
    match c
    case Upsert(offer, _) => d.rides[offer.ride].status == RidePending
    case Accept(k, trip) =>
      AcceptClashes(d, k, trip) || (d.rides[k.offer.ride].status == RidePending && d.offers[k.offer].fare == k.fare)
    case Cancel(k, _) =>
      (match d.rides[k.ride].status
       case RidePending => true
       case RideMatched => k.trip.Some?
       case RideCancelled => true
       case _ => false)
    case Start(_, ride) => d.rides[ride].status == RideMatched || d.rides[ride].status == RideInProgress
    case Complete(_, ride) => d.rides[ride].status == RideInProgress || d.rides[ride].status == RideCompleted
    case ExpireOne(offer) => d.offers[offer].status != OfferAccepted
    case ExpireAll(_) => true
  }

  /** The ride whose rows a commit writes. */
  function TouchedRide(c: Commit): RideId
    requires !c.ExpireAll?
  {
    match c
    case Upsert(offer, _) => offer.ride
    case Accept(k, _) => k.offer.ride
    case Cancel(k, _) => k.ride
    case Start(_, ride) => ride
    case Complete(_, ride) => ride
    case ExpireOne(offer) => offer.ride
  }

  lemma AcceptKeepsSchema(d: Db, k: AcceptTicket, trip: TripId)
    requires Schema(d) && AcceptTicketHolds(d, k)
    ensures Schema(CommitAccept(d, k, trip))
  {
  }

  lemma AcceptTouchesOneRide(d: Db, k: AcceptTicket, trip: TripId)
    requires Schema(d) && AcceptTicketHolds(d, k)
    ensures OnlyRideChanged(d, CommitAccept(d, k, trip), k.offer.ride)
  {
  }

  lemma AcceptGrows(d: Db, k: AcceptTicket, trip: TripId)
    requires AcceptTicketHolds(d, k)
    ensures Grows(d, CommitAccept(d, k, trip))
  {
  }

  lemma CancelKeepsSchema(d: Db, k: CancelTicket, reason: Option<string>)
    requires Schema(d) && CancelTicketHolds(d, k)
    ensures Schema(CommitCancel(d, k, reason))
  {
  }

  lemma CancelTouchesOneRide(d: Db, k: CancelTicket, reason: Option<string>)
    requires Schema(d) && CancelTicketHolds(d, k)
    ensures OnlyRideChanged(d, CommitCancel(d, k, reason), k.ride)
  {
  }

  lemma CancelGrows(d: Db, k: CancelTicket, reason: Option<string>)
    requires CancelTicketHolds(d, k)
    ensures Grows(d, CommitCancel(d, k, reason))
  {
  }

  lemma TripKeepsSchema(d: Db, trip: TripId, ride: RideId, t: TripStatus, r: RideStatus)
    requires Schema(d) && ride in d.rides && trip in d.trips && d.trips[trip].rideId == ride
    ensures Schema(CommitTrip(d, trip, ride, t, r)) && OnlyRideChanged(d, CommitTrip(d, trip, ride, t, r), ride)
    ensures Grows(d, CommitTrip(d, trip, ride, t, r))
  {
  }

  lemma OfferKeepsSchema(d: Db, offer: OfferId, row: Offer)
    requires Schema(d) && offer.ride in d.rides && offer.driver in d.profiles
    ensures Schema(d.(offers := d.offers[offer := row]))
    ensures OnlyRideChanged(d, d.(offers := d.offers[offer := row]), offer.ride)
    ensures Grows(d, d.(offers := d.offers[offer := row]))
  {
  }

  lemma ExpireAllKeepsSchema(d: Db, driver: ProfileId)
    requires Schema(d)
    ensures Schema(CommitExpireDriver(d, driver)) && Grows(d, CommitExpireDriver(d, driver))
  {
  }

  /** No commit breaks a key or an index or deletes a row, and but for one kind it writes rows of one ride only. */
  lemma PerformKeepsSchema(d: Db, c: Commit)
    requires Schema(d) && Holds(d, c)
    ensures Schema(Perform(d, c)) && Grows(d, Perform(d, c))
    ensures !c.ExpireAll? ==> TouchedRide(c) in d.rides && OnlyRideChanged(d, Perform(d, c), TouchedRide(c))
  {
    match c
    case Upsert(offer, fare) => OfferKeepsSchema(d, offer, Offer(fare, OfferPending));
    case Accept(k, trip) => AcceptKeepsSchema(d, k, trip); AcceptTouchesOneRide(d, k, trip); AcceptGrows(d, k, trip);
    case Cancel(k, reason) =>
      CancelKeepsSchema(d, k, reason);
      CancelTouchesOneRide(d, k, reason);
      CancelGrows(d, k, reason);
    case Start(trip, ride) => TripKeepsSchema(d, trip, ride, TripStarted, RideInProgress);
    case Complete(trip, ride) => TripKeepsSchema(d, trip, ride, TripCompleted, RideCompleted);
    case ExpireOne(offer) => OfferKeepsSchema(d, offer, d.offers[offer].(status := OfferExpired));
    case ExpireAll(driver) => ExpireAllKeepsSchema(d, driver);
  }

  lemma UpsertMoves(d: Db, offer: OfferId, fare: real)
    requires offer.ride in d.rides && offer.driver in d.profiles && RideCoupled(d, offer.ride)
    ensures MovedWell(d, CommitUpsert(d, offer, fare), offer.ride) <==> d.rides[offer.ride].status == RidePending
  {
    assert IsPending(CommitUpsert(d, offer, fare), OfferId(offer.ride, offer.driver));
  }

  lemma AcceptMoves(d: Db, k: AcceptTicket, trip: TripId)
    requires AcceptTicketHolds(d, k) && !AcceptClashes(d, k, trip) && RideCoupled(d, k.offer.ride)
    ensures MovedWell(d, CommitAccept(d, k, trip), k.offer.ride)
       <==> d.rides[k.offer.ride].status == RidePending && d.offers[k.offer].fare == k.fare
  {
    assert k.offer == OfferId(k.offer.ride, k.offer.driver);
  }

  lemma CancelMoves(d: Db, k: CancelTicket, reason: Option<string>)
    requires Schema(d) && CancelTicketHolds(d, k) && RideCoupled(d, k.ride)
    ensures MovedWell(d, CommitCancel(d, k, reason), k.ride) <==> Intact(d, Cancel(k, reason))
  {
  }

  lemma TripMoves(d: Db, trip: TripId, ride: RideId, t: TripStatus)
    requires Schema(d) && trip in d.trips && d.trips[trip].rideId == ride && RideCoupled(d, ride)
    ensures MovedWell(d, CommitTrip(d, trip, ride, t, RideStatusOf(t)), ride)
       <==> LegalMove(d.rides[ride].status, RideStatusOf(t))
  {
  }

  lemma ExpireMoves(d: Db, offer: OfferId)
    requires offer in d.offers && offer.ride in d.rides && RideCoupled(d, offer.ride)
    ensures MovedWell(d, CommitExpire(d, offer), offer.ride) <==> d.offers[offer].status != OfferAccepted
  {
    assert offer == OfferId(offer.ride, offer.driver);
  }

  lemma ExpireAllMoves(d: Db, driver: ProfileId, ride: RideId)
    requires ride in d.rides && RideCoupled(d, ride)
    ensures MovedWell(d, CommitExpireDriver(d, driver), ride)
  {
  }

  lemma CommitMoves(d: Db, c: Commit)
    requires Schema(d) && Holds(d, c) && !c.ExpireAll? && TouchedRide(c) in d.rides && RideCoupled(d, TouchedRide(c))
    ensures MovedWell(d, Perform(d, c), TouchedRide(c)) <==> Intact(d, c)
  {
    match c
    case Upsert(offer, fare) => UpsertMoves(d, offer, fare);
    case Accept(k, trip) => if !AcceptClashes(d, k, trip) { AcceptMoves(d, k, trip); }
    case Cancel(k, reason) => CancelMoves(d, k, reason);
    case Start(trip, ride) => TripMoves(d, trip, ride, TripStarted);
    case Complete(trip, ride) => TripMoves(d, trip, ride, TripCompleted);
    case ExpireOne(offer) => ExpireMoves(d, offer);
  }

  /**
   * Any granularity: from a coupled state, a commit is sound exactly when the
   * ride is in a state the write fits.
   */
  lemma SoundIffIntact(d: Db, c: Commit)
    requires Coupled(d) && Holds(d, c)
    ensures Sound(d, Perform(d, c)) <==> Intact(d, c)
  {
    PerformKeepsSchema(d, c);
    if c.ExpireAll? {
      forall r | r in d.rides ensures MovedWell(d, Perform(d, c), r) {
        ExpireAllMoves(d, c.driver, r);
      }
    } else {
      OneRideDecides(d, Perform(d, c), TouchedRide(c));
      CommitMoves(d, c);
    }
  }

  // ---------------------------------------------------------- Single steps

  // Level A from here on: a call is one step, so its own checks leave its
  // commit intact.

  lemma SubmitIsSound(s: State, driver: UserId, ride: RideId, fare: real)
    requires Coupled(s.db)
    ensures Sound(s.db, SubmitOffer(s, driver, ride, fare).state.db)
  {
    if ProfileOf(s.db, driver).Some? && CheckRideOpen(s.db, ride).Pass? {
      SoundIffIntact(s.db, Upsert(OfferId(ride, ProfileOf(s.db, driver).value), fare));
    }
  }

  lemma AcceptIsSound(s: State, rider: UserId, offer: OfferId, trip: TripId)
    requires Coupled(s.db)
    ensures Sound(s.db, AcceptOffer(s, rider, offer, trip).state.db)
  {
    var check := CheckAccept(s.db, rider, offer);
    if check.Pass? {
      SoundIffIntact(s.db, Accept(check.value, trip));
    }
  }

  lemma CancelIsSound(s: State, ride: RideId, user: UserId, reason: Option<string>)
    requires Coupled(s.db)
    ensures Sound(s.db, CancelRide(s, ride, user, reason).state.db)
  {
    var check := CheckCancel(s.db, ride, user);
    if check.Pass? {
      assert RideCoupled(s.db, ride);
      SoundIffIntact(s.db, Cancel(check.value, reason));
    }
  }

  /** start tests only the trip, yet never writes over a ride that is not MATCHED. */
  lemma StartIsSound(s: State, trip: TripId, user: UserId)
    requires Coupled(s.db)
    ensures Sound(s.db, StartTrip(s, trip, user).state.db)
    ensures StartTrip(s, trip, user).reply == Ok ==> s.db.rides[s.db.trips[trip].rideId].status == RideMatched
  {
    var check := CheckTrip(s.db, trip, user, TripMatched);
    if check.Pass? {
      assert RideCoupled(s.db, check.value);
      SoundIffIntact(s.db, Start(trip, check.value));
    }
  }

  /** complete tests only the trip, yet never writes over a ride that is not IN_PROGRESS. */
  lemma CompleteIsSound(s: State, trip: TripId, user: UserId)
    requires Coupled(s.db)
    ensures Sound(s.db, CompleteTrip(s, trip, user).state.db)
    ensures CompleteTrip(s, trip, user).reply == Ok ==> s.db.rides[s.db.trips[trip].rideId].status == RideInProgress
  {
    var check := CheckTrip(s.db, trip, user, TripStarted);
    if check.Pass? {
      assert RideCoupled(s.db, check.value);
      SoundIffIntact(s.db, Complete(trip, check.value));
    }
  }

  lemma ProcessIsSound(s: State, job: Job)
    requires Coupled(s.db)
    ensures Sound(s.db, Process(s, job).db)
  {
    match job
    case ExpireOffer(offer) => if IsPending(s.db, offer) { SoundIffIntact(s.db, ExpireOne(offer)); }
    case ExpireDriverOffers(driver) => SoundIffIntact(s.db, ExpireAll(driver));
  }

  /** New rows, new profiles and profile flags leave every ride coupled. */
  lemma GrowthIsSound(d: Db, e: Db)
    requires Coupled(d) && Schema(e)
    requires e.offers == d.offers && e.trips == d.trips && e.tripByRide == d.tripByRide
    requires forall r :: r in d.rides ==> r in e.rides && e.rides[r] == d.rides[r]
    requires forall r :: r in e.rides && r !in d.rides ==> e.rides[r].status == RidePending
    requires forall u :: u in d.profileByUser ==> u in e.profileByUser && e.profileByUser[u] == d.profileByUser[u]
    ensures Sound(d, e)
  {
    forall r | r in e.rides ensures RideCoupled(e, r) {
      if r in d.rides {
        assert RideCoupled(d, r);
      }
    }
  }

  lemma StepIsSound(s: State, step: Step)
    requires Coupled(s.db)
    ensures Sound(s.db, Apply(s, step).db)
  {
    match step
    case DoSubmit(driver, ride, fare) => SubmitIsSound(s, driver, ride, fare);
    case DoAccept(rider, offer, trip) => AcceptIsSound(s, rider, offer, trip);
    case DoCancel(ride, user, reason) => CancelIsSound(s, ride, user, reason);
    case DoStart(trip, user) => StartIsSound(s, trip, user);
    case DoComplete(trip, user) => CompleteIsSound(s, trip, user);
    case DoJob(job) => ProcessIsSound(s, job); GrowthIsSound(s.db, s.db);
    case DoCreateRide(_, _, _) => GrowthIsSound(s.db, Apply(s, step).db);
    case Tick(_) => GrowthIsSound(s.db, s.db);
    case Elsewhere(other) => OtherStepIsSound(s, other);
  }

  lemma OtherStepIsSound(s: State, step: OtherStep)
    requires Coupled(s.db)
    ensures Sound(s.db, ApplyOther(s, step).db)
  {
    OtherStepKeepsSchema(s.db, step);
    OtherStepGrows(s.db, step);
    GrowthIsSound(s.db, OtherTables(s.db, step));
  }

  lemma OtherStepKeepsSchema(d: Db, step: OtherStep)
    requires Schema(d)
    ensures Schema(OtherTables(d, step))
  {
  }

  lemma OtherStepGrows(d: Db, step: OtherStep)
    ensures Grows(d, OtherTables(d, step))
  {
  }

  // ------------------------------------------------------------------ Runs

  /** Any number of steps, in any order. */
  ghost function Run(s: State, steps: seq<Step>): (r: State)
    requires Coupled(s.db)
    ensures Coupled(r.db)
    decreases |steps|
  {
    if steps == [] then s else
    StepIsSound(s, steps[0]);
    Run(Apply(s, steps[0]), steps[1..])
  }

  ghost function RunFromEmpty(expirySeconds: nat, steps: seq<Step>): (r: State)
    ensures Coupled(r.db)
  {
    Run(Initial(expirySeconds), steps)
  }

  ghost predicate OnlyAccepted(d: Db, o: OfferId) {
    IsAccepted(d, o) && forall p :: IsAccepted(d, p) && p.ride == o.ride ==> p == o
  }

  /** Level A. What the coupling says of a ride after any run from the empty system. */
  lemma EveryRunIsCoupled(expirySeconds: nat, steps: seq<Step>, r: RideId)
    requires r in RunFromEmpty(expirySeconds, steps).db.rides
    ensures
      var d := RunFromEmpty(expirySeconds, steps).db;
      match d.rides[r].status
      case RidePending => NoTrip(d, r) && forall p :: !IsAccepted(d, OfferId(r, p))
      case RideCancelled => NoTrip(d, r) || ItsTripIs(d, r, TripCancelled)
      case RideMatched => ItsTripIs(d, r, TripMatched)
      case RideInProgress => ItsTripIs(d, r, TripStarted)
      case RideCompleted => ItsTripIs(d, r, TripCompleted)
    ensures
      var d := RunFromEmpty(expirySeconds, steps).db;
      d.rides[r].status != RidePending ==> forall p :: !IsPending(d, OfferId(r, p))
  {
    CouplingMeans(RunFromEmpty(expirySeconds, steps).db, r);
  }

  ghost predicate NoTrip(d: Db, r: RideId) {
    forall t :: t in d.trips ==> d.trips[t].rideId != r
  }

  /** The ride has one trip, of this status, for its rider, with the only accepted offer's driver and fare. */
  ghost predicate ItsTripIs(d: Db, r: RideId, status: TripStatus)
    requires r in d.rides
  {
    exists t: TripId, o: OfferId ::
      && t in d.trips && d.trips[t].rideId == r && (forall u :: u in d.trips && d.trips[u].rideId == r ==> u == t)
      && d.trips[t].status == status && d.trips[t].riderId == d.rides[r].riderId
      && OnlyAccepted(d, o) && o.ride == r && o.driver in d.profiles
      && d.trips[t].driverId == d.profiles[o.driver].userId && d.trips[t].agreedFare == d.offers[o].fare
  }

  lemma CouplingMeans(d: Db, r: RideId)
    requires Coupled(d) && r in d.rides
    ensures TripOf(d, r).None? ==>
      NoTrip(d, r) && Tripless(d.rides[r].status) && forall p :: !IsAccepted(d, OfferId(r, p))
    ensures TripOf(d, r).Some? ==>
      && d.rides[r].status != RidePending
      && exists s: TripStatus :: RideStatusOf(s) == d.rides[r].status && ItsTripIs(d, r, s)
    ensures d.rides[r].status != RidePending ==> forall p :: !IsPending(d, OfferId(r, p))
  {
    assert RideCoupled(d, r);
    if TripOf(d, r).Some? {
      var t := TripOf(d, r).value;
      var o := OfferOf(d, d.trips[t]).value;
      forall p | IsAccepted(d, p) && p.ride == r ensures p == o {
        assert p == OfferId(r, p.driver);
      }
      assert OnlyAccepted(d, o);
      assert ItsTripIs(d, r, d.trips[t].status);
    }
  }

  // -------------------------------------------------------------- Progress

  function Rank(r: RideStatus): nat {
    match r
    case RidePending => 0
    case RideMatched => 1
    case RideInProgress => 2
    case RideCompleted => 3
    case RideCancelled => 3
  }

  /** How many steps of the run change the status of the ride. */
  ghost function StatusChanges(s: State, steps: seq<Step>, r: RideId): nat
    requires Coupled(s.db)
    decreases |steps|
  {
    if steps == [] then 0 else
    StepIsSound(s, steps[0]);
    var next := Apply(s, steps[0]);
    (if r in s.db.rides && r in next.db.rides && next.db.rides[r].status != s.db.rides[r].status then 1 else 0)
    + StatusChanges(next, steps[1..], r)
  }

  lemma StepRaisesRank(s: State, step: Step, r: RideId)
    requires Coupled(s.db)
    ensures Coupled(Apply(s, step).db)
    ensures r in s.db.rides ==>
      && r in Apply(s, step).db.rides
      && (Apply(s, step).db.rides[r].status == s.db.rides[r].status
          || Rank(Apply(s, step).db.rides[r].status) > Rank(s.db.rides[r].status))
  {
    StepIsSound(s, step);
    assert r in s.db.rides ==> LegalMove(s.db.rides[r].status, Apply(s, step).db.rides[r].status);
  }

  /** Level A. Every change raises the rank, so a ride changes status at most three times, and never from an end. */
  lemma {:induction false} RidesProgress(s: State, steps: seq<Step>, r: RideId)
    requires Coupled(s.db)
    ensures StatusChanges(s, steps, r) <= 3
    ensures r in s.db.rides ==>
      && r in Run(s, steps).db.rides
      && Rank(Run(s, steps).db.rides[r].status) >= Rank(s.db.rides[r].status) + StatusChanges(s, steps, r)
      && (StatusChanges(s, steps, r) == 0 ==> Run(s, steps).db.rides[r].status == s.db.rides[r].status)
    decreases |steps|
  {
    if steps != [] {
      StepRaisesRank(s, steps[0], r);
      RidesProgress(Apply(s, steps[0]), steps[1..], r);
    }
  }

  /** Level A. COMPLETED and CANCELLED are absorbing. */
  lemma {:induction false} EndsAreFinal(s: State, steps: seq<Step>, r: RideId)
    requires Coupled(s.db) && r in s.db.rides
    requires s.db.rides[r].status == RideCompleted || s.db.rides[r].status == RideCancelled
    ensures r in Run(s, steps).db.rides && Run(s, steps).db.rides[r].status == s.db.rides[r].status
  {
    RidesProgress(s, steps, r);
  }

  // ---------------------------------------------------------- Notification

  function Flipped(d: Db, e: Db): set<OfferId> {
    set o | o in d.offers && o in e.offers && d.offers[o].status == OfferPending && e.offers[o].status == OfferExpired
  }

  ghost predicate OtherOffersUnchanged(d: Db, e: Db, ride: RideId) {
    forall o: OfferId :: o.ride != ride ==>
      (o in d.offers <==> o in e.offers) && (o in d.offers ==> d.offers[o] == e.offers[o])
  }

  /** Level A. The drivers announced as rejected are those whose offers the transaction expired. */
  lemma AcceptAnnouncesItsEffect(s: State, rider: UserId, offer: OfferId, trip: TripId)
    requires Coupled(s.db) && AcceptOffer(s, rider, offer, trip).reply == Ok
    ensures var s' := AcceptOffer(s, rider, offer, trip).state;
      && |s'.log| > 0 && s'.log[|s'.log| - 1]
           == OfferAcceptedEvent(offer, trip, DriverUsers(s.db, Flipped(s.db, s'.db)))
      && s.db.profiles[offer.driver].userId !in DriverUsers(s.db, Flipped(s.db, s'.db))
      && OtherOffersUnchanged(s.db, s'.db, offer.ride)
  {
    var s' := AcceptOffer(s, rider, offer, trip).state;
    assert OtherPending(s.db, offer) == Flipped(s.db, s'.db);
    forall o | o in Flipped(s.db, s'.db) ensures s.db.profiles[o.driver].userId != s.db.profiles[offer.driver].userId {
      assert o.driver != offer.driver;
    }
  }

  /** Level A. The drivers told of a cancellation are those whose offers the transaction expired. */
  lemma CancelAnnouncesItsEffect(s: State, ride: RideId, user: UserId, reason: Option<string>)
    requires Coupled(s.db) && CancelRide(s, ride, user, reason).reply == Ok
    ensures var s' := CancelRide(s, ride, user, reason).state;
      && |s'.log| > 0 && s'.log[|s'.log| - 1]
           == RideCancelledEvent(ride, DriverUsers(s.db, Flipped(s.db, s'.db)))
      && OtherOffersUnchanged(s.db, s'.db, ride)
  {
    var s' := CancelRide(s, ride, user, reason).state;
    assert PendingFor(s.db.offers, ride) == Flipped(s.db, s'.db);
  }

  /**
   * Level A. After an accept its rider and the rejected drivers may still view
   * the ride; the accepted driver may cancel it, and a rejected one may not,
   * unless the same account is its rider.
   */
  lemma AnnouncedMayView(s: State, rider: UserId, offer: OfferId, trip: TripId, rejected: UserId)
    requires Coupled(s.db) && AcceptOffer(s, rider, offer, trip).reply == Ok
    requires rejected in DriverUsers(s.db, OtherPending(s.db, offer))
    ensures var d := AcceptOffer(s, rider, offer, trip).state.db;
      && Schema(d) && offer.ride in d.rides
      && CanView(d, offer.ride, rejected) && CanView(d, offer.ride, rider)
      && CanCancel(d, offer.ride, s.db.profiles[offer.driver].userId)
      && (CanCancel(d, offer.ride, rejected) <==> rejected == rider)
  {
    var k := CheckAccept(s.db, rider, offer).value;
    var d := AcceptOffer(s, rider, offer, trip).state.db;
    AcceptKeepsSchema(s.db, k, trip);
    var o :| o in OtherPending(s.db, offer) && s.db.profiles[o.driver].userId == rejected;
    assert o in d.offers && o.ride == offer.ride && d.profiles[o.driver].userId == rejected;
    assert o.driver != offer.driver;
  }

  /** Level A. With a fresh trip id an accept succeeds exactly when its checks pass: the unique index never speaks. */
  lemma AcceptSucceedsIff(s: State, rider: UserId, offer: OfferId, trip: TripId)
    requires Coupled(s.db) && trip !in s.db.trips
    ensures AcceptOffer(s, rider, offer, trip).reply == Ok <==>
      && offer in s.db.offers && s.db.offers[offer].status == OfferPending
      && s.db.rides[offer.ride].riderId == rider && s.db.rides[offer.ride].status == RidePending
    ensures AcceptOffer(s, rider, offer, trip).reply != UniqueViolation
    ensures AcceptOffer(s, rider, offer, trip).reply != Ok ==> AcceptOffer(s, rider, offer, trip).state == s
  {
    if offer in s.db.offers {
      assert RideCoupled(s.db, offer.ride);
    }
  }

  /** Level A. Its driver can start a trip exactly while its ride is MATCHED, and complete it while IN_PROGRESS. */
  lemma TripCallsSucceedIff(s: State, trip: TripId, driver: UserId)
    requires Coupled(s.db) && trip in s.db.trips && s.db.trips[trip].driverId == driver
    requires CanActivate(s.db, driver, DriverMode)
    ensures StartTrip(s, trip, driver).reply == Ok <==> s.db.rides[s.db.trips[trip].rideId].status == RideMatched
    ensures CompleteTrip(s, trip, driver).reply == Ok <==> s.db.rides[s.db.trips[trip].rideId].status == RideInProgress
  {
    assert RideCoupled(s.db, s.db.trips[trip].rideId);
  }

  /** Level A. A started trip can be completed at once, and not started again. */
  lemma StartThenComplete(s: State, trip: TripId, driver: UserId)
    requires Schema(s.db) && StartTrip(s, trip, driver).reply == Ok
    ensures var s1 := StartTrip(s, trip, driver).state;
      && Schema(s1.db) && CompleteTrip(s1, trip, driver).reply == Ok
      && StartTrip(s1, trip, driver).reply == BadRequest
  {
    StartKeepsSchema(s, trip, driver);
    var d := StartTrip(s, trip, driver).state.db;
    assert d.trips[trip] == s.db.trips[trip].(status := TripStarted) && CanActivate(d, driver, DriverMode);
  }

  lemma StartKeepsSchema(s: State, trip: TripId, driver: UserId)
    requires Schema(s.db)
    ensures Schema(StartTrip(s, trip, driver).state.db)
  {
    var check := CheckTrip(s.db, trip, driver, TripMatched);
    if check.Pass? { TripKeepsSchema(s.db, trip, check.value, TripStarted, RideInProgress); }
  }
}
