/**
 * The services of the negotiation as they run: objects that share one database,
 * queue and event bus and write it statement by statement. Every method is
 * proved to be the step of the same name in RideModel, reply and whole state.
 */
module RideServices {
  import opened Common
  import opened RideModel
  import opened RideInvariant

  /** What the services share: Prisma's tables, the offer-expiry queue, the clock and the events. */
  class Backend {
    var users: map<UserId, Mode>
    var profiles: map<ProfileId, Profile>
    var profileByUser: map<UserId, ProfileId>
    var rides: map<RideId, Ride>
    var offers: map<OfferId, Offer>
    var trips: map<TripId, Trip>
    var tripByRide: map<RideId, TripId>
    var waiting: map<Job, Millis>
    var held: map<Job, nat>
    var finished: set<Job>
    var now: Millis
    var log: seq<Entry>
    const expirySeconds: nat

    ghost function View(): State
      reads this
    {
      var db := Db(users, profiles, profileByUser, rides, offers, trips, tripByRide);
      State(db, waiting, held, finished, now, expirySeconds, log)
    }

    ghost predicate Valid()
      reads this
    {
      Schema(View().db)
    }

    constructor (expirySeconds: nat)
      ensures View() == Initial(expirySeconds) && Valid()
    {
      users, profiles, profileByUser, rides := map[], map[], map[], map[];
      offers, trips, tripByRide := map[], map[], map[];
      waiting, held, finished := map[], map[], {};
      now, log := 0, [];
      this.expirySeconds := expirySeconds;
    }

    method Append(e: Entry)
      modifies this`log
      ensures View() == Emit(old(View()), e)
    {
      log := log + [e];
    }
  }

  class OffersService {
    const shared: Backend

    constructor (shared: Backend)
      ensures this.shared == shared
    {
      this.shared := shared;
    }

    method SubmitOffer(driver: UserId, ride: RideId, fare: real) returns (reply: Reply)
      requires shared.Valid()
      modifies shared
      ensures Outcome(shared.View(), reply) == RideModel.SubmitOffer(old(shared.View()), driver, ride, fare)
      ensures shared.Valid()
    {
      if driver !in shared.profileByUser {
        return NotFound;
      }
      var profile := shared.profileByUser[driver];
      if ride !in shared.rides {
        return NotFound;
      }
      if shared.rides[ride].status != RidePending {
        return BadRequest;
      }
      var rider := shared.rides[ride].riderId;
      var offer := OfferId(ride, profile);
      shared.offers := shared.offers[offer := Offer(fare, OfferPending)];
      shared.Append(Submitted(offer, fare, shared.now));
      ScheduleExpiry(offer);
      shared.Append(OfferSubmittedEvent(offer, rider));
      OfferKeepsSchema(old(shared.View().db), offer, Offer(fare, OfferPending));
      return Ok;
    }

    method AcceptOffer(rider: UserId, offer: OfferId, freshTrip: TripId) returns (reply: Reply)
      requires shared.Valid()
      modifies shared
      ensures Outcome(shared.View(), reply) == RideModel.AcceptOffer(old(shared.View()), rider, offer, freshTrip)
      ensures shared.Valid()
    {
      if offer !in shared.offers {
        return NotFound;
      }
      var ride := offer.ride;
      if shared.rides[ride].riderId != rider {
        return Forbidden;
      }
      if shared.rides[ride].status != RidePending || shared.offers[offer].status != OfferPending {
        return BadRequest;
      }
      var k := AcceptTicket(offer, shared.offers[offer].fare, shared.profiles[offer.driver].userId, rider);
      var others := PendingFor(shared.offers, ride) - {offer};
      var committed := TransactAccept(k, freshTrip);
      if !committed {
        return UniqueViolation;
      }
      AcceptKeepsSchema(old(shared.View().db), k, freshTrip);
      CancelScheduledExpiries({offer} + others);
      var rejected := set o | o in others :: shared.profiles[o.driver].userId;
      assert rejected == DriverUsers(old(shared.View().db), others);
      shared.Append(OfferAcceptedEvent(offer, freshTrip, rejected));
      return Ok;
    }

    /** The transaction: refused as a whole when a row clashes. */
    method TransactAccept(k: AcceptTicket, freshTrip: TripId) returns (committed: bool)
      requires AcceptTicketHolds(shared.View().db, k)
      modifies shared
      ensures committed <==> !AcceptClashes(old(shared.View().db), k, freshTrip)
      ensures shared.View() ==
        if committed
        then Write(old(shared.View()), CommitAccept(old(shared.View().db), k, freshTrip), Accepted(k.offer, freshTrip))
        else old(shared.View())
    {
      var ride := k.offer.ride;
      if freshTrip in shared.trips || ride in shared.tripByRide {
        return false;
      }
      shared.offers := shared.offers[k.offer := shared.offers[k.offer].(status := OfferAccepted)];
      shared.offers := Expire(shared.offers, PendingFor(shared.offers, ride) - {k.offer});
      shared.rides := shared.rides[ride := shared.rides[ride].(status := RideMatched)];
      shared.trips := shared.trips[freshTrip := Trip(ride, k.driver, k.rider, k.fare, TripMatched, None)];
      shared.tripByRide := shared.tripByRide[ride := freshTrip];
      shared.Append(Accepted(k.offer, freshTrip));
      return true;
    }

    method CancelScheduledExpiries(offers: set<OfferId>)
      modifies shared`waiting, shared`finished
      ensures shared.View() == Unschedule(old(shared.View()), offers)
    {
      var rest := offers;
      while rest != {}
        invariant rest <= offers
        invariant shared.View() == Unschedule(old(shared.View()), offers - rest)
        decreases rest
      {
        var o :| o in rest;
        CancelScheduledExpiry(o);
        rest := rest - {o};
      }
      assert offers - rest == offers;
    }

    /** Removing a job that a worker holds is refused, and the refusal ignored. */
    method CancelScheduledExpiry(offer: OfferId)
      modifies shared`waiting, shared`finished
      ensures shared.View() == Unschedule(old(shared.View()), {offer})
    {
      if ExpireOffer(offer) !in shared.held {
        shared.waiting := shared.waiting - {ExpireOffer(offer)};
        shared.finished := shared.finished - {ExpireOffer(offer)};
        assert (set o | o in {offer} && ExpireOffer(o) !in shared.held :: ExpireOffer(o)) == {ExpireOffer(offer)};
      }
    }

    method ScheduleExpiry(offer: OfferId)
      modifies shared`waiting, shared`finished
      ensures shared.View() == Schedule(Unschedule(old(shared.View()), {offer}), offer)
    {
      CancelScheduledExpiry(offer);
      Add(ExpireOffer(offer));
    }

    method ScheduleDriverOfferExpiry(driver: ProfileId)
      modifies shared`waiting
      ensures shared.View() == ScheduleDriver(old(shared.View()), driver)
    {
      Add(ExpireDriverOffers(driver));
    }

    method Add(job: Job)
      modifies shared`waiting
      ensures shared.View() == AddJob(old(shared.View()), job)
    {
      if job !in shared.waiting && job !in shared.held && job !in shared.finished {
        shared.waiting := shared.waiting[job := shared.now + shared.expirySeconds * 1000];
      }
    }

    /** The ride and driver to report, or nothing when the offer is no longer pending. */
    method ExpireIfStillPending(offer: OfferId) returns (r: Option<UserId>)
      requires shared.Valid()
      modifies shared`offers
      ensures r.Some? <==> old(IsPending(shared.View().db, offer))
      ensures r.Some? ==> r.value == old(shared.View().db.profiles[offer.driver].userId)
      ensures r.Some? ==> shared.View() == old(shared.View()).(db := CommitExpire(old(shared.View().db), offer))
      ensures r.None? ==> shared.View() == old(shared.View())
    {
      if offer !in shared.offers || shared.offers[offer].status != OfferPending {
        return None;
      }
      shared.offers := shared.offers[offer := shared.offers[offer].(status := OfferExpired)];
      return Some(shared.profiles[offer.driver].userId);
    }

    method ExpireAllPendingOffersForDriver(driver: ProfileId)
      requires shared.Valid()
      modifies shared`offers
      ensures shared.View() == Process(old(shared.View()), ExpireDriverOffers(driver))
    {
      if driver !in shared.profiles || shared.profiles[driver].isOnline {
        return;
      }
      shared.offers := Expire(shared.offers, PendingBy(shared.offers, driver));
    }
  }

  class OfferExpiryProcessor {
    const offersService: OffersService

    constructor (offersService: OffersService)
      ensures this.offersService == offersService
    {
      this.offersService := offersService;
    }

    method Process(job: Job)
      requires offersService.shared.Valid()
      modifies offersService.shared
      ensures offersService.shared.View() == RideModel.Process(old(offersService.shared.View()), job)
    {
      match job
      case ExpireOffer(offer) =>
        var result := offersService.ExpireIfStillPending(offer);
        if result.Some? {
          offersService.shared.Append(OfferExpiredEvent(offer, result.value));
        }
      case ExpireDriverOffers(driver) =>
        offersService.ExpireAllPendingOffersForDriver(driver);
    }
  }

  class RideRequestsService {
    const shared: Backend

    constructor (shared: Backend)
      ensures this.shared == shared
    {
      this.shared := shared;
    }

    method Create(freshRide: RideId, rider: UserId, suggestedFare: real) returns (reply: Reply)
      requires shared.Valid()
      modifies shared`rides
      ensures Outcome(shared.View(), reply) == CreateRide(old(shared.View()), freshRide, rider, suggestedFare)
    {
      if freshRide in shared.rides {
        return UniqueViolation;
      }
      shared.rides := shared.rides[freshRide := Ride(rider, suggestedFare, RidePending, None)];
      return Ok;
    }

    method FindOneForUser(ride: RideId, requester: UserId) returns (reply: Reply)
      requires shared.Valid()
      ensures reply == if ride !in shared.rides then NotFound
                       else if CanView(shared.View().db, ride, requester) then Ok else Forbidden
    {
      if ride !in shared.rides {
        return NotFound;
      }
      var isOwnerRider := shared.rides[ride].riderId == requester;
      var offering := set o | o in shared.offers && o.ride == ride :: shared.profiles[o.driver].userId;
      var isOfferingDriver := requester in offering;
      var isMatchedDriver := ride in shared.tripByRide && shared.trips[shared.tripByRide[ride]].driverId == requester;
      return if isOwnerRider || isOfferingDriver || isMatchedDriver then Ok else Forbidden;
    }

    method Cancel(ride: RideId, requester: UserId, reason: Option<string>) returns (reply: Reply)
      requires shared.Valid()
      modifies shared
      ensures Outcome(shared.View(), reply) == CancelRide(old(shared.View()), ride, requester, reason)
      ensures shared.Valid()
    {
      if ride !in shared.rides {
        return NotFound;
      }
      var isOwnerRider := shared.rides[ride].riderId == requester;
      var isMatchedDriver := ride in shared.tripByRide && shared.trips[shared.tripByRide[ride]].driverId == requester;
      if !isOwnerRider && !isMatchedDriver {
        return Forbidden;
      }
      if shared.rides[ride].status != RidePending && shared.rides[ride].status != RideMatched {
        return BadRequest;
      }
      var affected := set o | o in PendingFor(shared.offers, ride) :: shared.profiles[o.driver].userId;
      ghost var k := CancelTicket(ride, TripOf(shared.View().db, ride), affected);

      var row := shared.rides[ride];
      var rideReason := Overwrite(row.cancelReason, reason);
      shared.rides := shared.rides[ride := row.(status := RideCancelled, cancelReason := rideReason)];
      shared.offers := Expire(shared.offers, PendingFor(shared.offers, ride));
      if ride in shared.tripByRide {
        var trip := shared.tripByRide[ride];
        var tripRow := shared.trips[trip];
        var tripReason := Overwrite(tripRow.cancelReason, reason);
        shared.trips := shared.trips[trip := tripRow.(status := TripCancelled, cancelReason := tripReason)];
      }
      assert shared.View().db == CommitCancel(old(shared.View().db), k, reason);
      CancelKeepsSchema(old(shared.View().db), k, reason);
      shared.Append(RideCancelledEvent(ride, affected));
      return Ok;
    }
  }

  class TripsService {
    const shared: Backend

    constructor (shared: Backend)
      ensures this.shared == shared
    {
      this.shared := shared;
    }

    /** The route's guard, then the service call. */
    method Start(trip: TripId, user: UserId) returns (reply: Reply)
      requires shared.Valid()
      modifies shared
      ensures Outcome(shared.View(), reply) == StartTrip(old(shared.View()), trip, user)
      ensures shared.Valid()
    {
      var found := FindOwnedByDriver(trip, user, TripMatched);
      if found.Fail? {
        return found.reply;
      }
      var ride := found.value;
      TripKeepsSchema(shared.View().db, trip, ride, TripStarted, RideInProgress);
      TransactTrip(trip, ride, TripStarted, RideInProgress);
      shared.Append(TripStartedEvent(trip));
      return Ok;
    }

    method Complete(trip: TripId, user: UserId) returns (reply: Reply)
      requires shared.Valid()
      modifies shared
      ensures Outcome(shared.View(), reply) == CompleteTrip(old(shared.View()), trip, user)
      ensures shared.Valid()
    {
      var found := FindOwnedByDriver(trip, user, TripStarted);
      if found.Fail? {
        return found.reply;
      }
      var ride := found.value;
      TripKeepsSchema(shared.View().db, trip, ride, TripCompleted, RideCompleted);
      TransactTrip(trip, ride, TripCompleted, RideCompleted);
      shared.Append(TripCompletedEvent(trip));
      return Ok;
    }

    /** Both updates, by id. */
    method TransactTrip(trip: TripId, ride: RideId, t: TripStatus, r: RideStatus)
      requires trip in shared.trips && ride in shared.rides
      modifies shared`trips, shared`rides
      ensures shared.View() == old(shared.View()).(db := CommitTrip(old(shared.View().db), trip, ride, t, r))
    {
      shared.trips := shared.trips[trip := shared.trips[trip].(status := t)];
      shared.rides := shared.rides[ride := shared.rides[ride].(status := r)];
    }

    method FindOwnedByDriver(trip: TripId, user: UserId, expected: TripStatus) returns (r: Check<RideId>)
      requires shared.Valid()
      ensures r == if !CanActivate(shared.View().db, user, DriverMode) then Fail(Forbidden)
                   else CheckTrip(shared.View().db, trip, user, expected)
    {
      if user !in shared.users || shared.users[user] != DriverMode || user !in shared.profileByUser {
        return Fail(Forbidden);
      }
      if trip !in shared.trips {
        return Fail(NotFound);
      }
      if shared.trips[trip].driverId != user {
        return Fail(Forbidden);
      }
      if shared.trips[trip].status != expected {
        return Fail(BadRequest);
      }
      return Pass(shared.trips[trip].rideId);
    }
  }
}
