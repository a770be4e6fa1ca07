/**
 * Level A. What each call of the negotiation answers and leaves behind, read
 * off the rows: who may make it and in which state, which refusal comes
 * otherwise, and what becomes of every table, of the queue and of the log.
 * Nothing here names the checks and writes that the calls are composed of.
 */
module RideCalls {
  import opened Common
  import opened RideModel
  import opened RideInvariant

  // ------------------------------------------------------------------ Trips

  /** Only its driver starts a trip, in driver mode and with a profile, while it is MATCHED. */
  lemma StartSucceedsIff(s: State, trip: TripId, user: UserId)
    requires Schema(s.db)
    ensures var d := s.db; var guarded := user in d.users && d.users[user] == DriverMode && user in d.profileByUser;
      var reply := StartTrip(s, trip, user).reply;
      && (reply == Ok <==>
            guarded && trip in d.trips && d.trips[trip].driverId == user && d.trips[trip].status == TripMatched)
      && (reply == Forbidden <==> !guarded || (trip in d.trips && d.trips[trip].driverId != user))
      && (reply == NotFound <==> guarded && trip !in d.trips)
      && (reply == BadRequest <==>
            guarded && trip in d.trips && d.trips[trip].driverId == user && d.trips[trip].status != TripMatched)
    ensures StartTrip(s, trip, user).reply != Ok ==> StartTrip(s, trip, user).state == s
    ensures StartTrip(s, trip, user).reply == Ok ==> var d := s.db; var ride := d.trips[trip].rideId;
      StartTrip(s, trip, user).state == s.(
        db := d.(trips := d.trips[trip := d.trips[trip].(status := TripStarted)],
                 rides := d.rides[ride := d.rides[ride].(status := RideInProgress)]),
        log := s.log + [TripStartedEvent(trip)])
  {
  }

  /** Only its driver completes a trip, in driver mode and with a profile, while it is STARTED. */
  lemma CompleteSucceedsIff(s: State, trip: TripId, user: UserId)
    requires Schema(s.db)
    ensures var d := s.db; var guarded := user in d.users && d.users[user] == DriverMode && user in d.profileByUser;
      var reply := CompleteTrip(s, trip, user).reply;
      && (reply == Ok <==>
            guarded && trip in d.trips && d.trips[trip].driverId == user && d.trips[trip].status == TripStarted)
      && (reply == Forbidden <==> !guarded || (trip in d.trips && d.trips[trip].driverId != user))
      && (reply == NotFound <==> guarded && trip !in d.trips)
      && (reply == BadRequest <==>
            guarded && trip in d.trips && d.trips[trip].driverId == user && d.trips[trip].status != TripStarted)
    ensures CompleteTrip(s, trip, user).reply != Ok ==> CompleteTrip(s, trip, user).state == s
    ensures CompleteTrip(s, trip, user).reply == Ok ==> var d := s.db; var ride := d.trips[trip].rideId;
      CompleteTrip(s, trip, user).state == s.(
        db := d.(trips := d.trips[trip := d.trips[trip].(status := TripCompleted)],
                 rides := d.rides[ride := d.rides[ride].(status := RideCompleted)]),
        log := s.log + [TripCompletedEvent(trip)])
  {
  }

  // ----------------------------------------------------------------- Offers

  /** Any driver with a profile may offer on a PENDING ride. */
  lemma SubmitSucceedsIff(s: State, driver: UserId, ride: RideId, fare: real)
    requires Schema(s.db)
    ensures var d := s.db; var reply := SubmitOffer(s, driver, ride, fare).reply;
      && (reply == Ok <==> driver in d.profileByUser && ride in d.rides && d.rides[ride].status == RidePending)
      && (reply == NotFound <==> driver !in d.profileByUser || ride !in d.rides)
      && (reply == BadRequest <==> driver in d.profileByUser && ride in d.rides && d.rides[ride].status != RidePending)
    ensures SubmitOffer(s, driver, ride, fare).reply != Ok ==> SubmitOffer(s, driver, ride, fare).state == s
  {
  }

  /** The driver's one offer on the ride is then PENDING at this fare, and nothing else in the tables has changed. */
  lemma SubmitEffect(s: State, driver: UserId, ride: RideId, fare: real)
    requires Schema(s.db) && SubmitOffer(s, driver, ride, fare).reply == Ok
    ensures driver in s.db.profileByUser && ride in s.db.rides
    ensures var s' := SubmitOffer(s, driver, ride, fare).state; var o := OfferId(ride, s.db.profileByUser[driver]);
      && s'.db == s.db.(offers := s.db.offers[o := Offer(fare, OfferPending)])
      && s'.log == s.log + [Submitted(o, fare, s.now), OfferSubmittedEvent(o, s.db.rides[ride].riderId)]
  {
  }

  /** Its job falls due a full term from now, whatever job it had before, unless a worker holds that. */
  lemma SubmitSchedules(s: State, driver: UserId, ride: RideId, fare: real)
    requires Schema(s.db) && SubmitOffer(s, driver, ride, fare).reply == Ok
    ensures driver in s.db.profileByUser
    ensures var s' := SubmitOffer(s, driver, ride, fare).state;
      var job := ExpireOffer(OfferId(ride, s.db.profileByUser[driver]));
      && s'.held == s.held && s'.now == s.now && s'.expirySeconds == s.expirySeconds
      && (job in s.held ==> s'.jobs == s.jobs && s'.finished == s.finished)
      && (job !in s.held ==>
            s'.jobs == s.jobs[job := s.now + s.expirySeconds * 1000] && s'.finished == s.finished - {job})
  {
    var o := OfferId(ride, s.db.profileByUser[driver]);
    var job := ExpireOffer(o);
    if job !in s.held {
      assert (set p | p in {o} && ExpireOffer(p) !in s.held :: ExpireOffer(p)) == {job};
      assert (s.jobs - {job})[job := s.now + s.expirySeconds * 1000] == s.jobs[job := s.now + s.expirySeconds * 1000];
    } else {
      assert (set p | p in {o} && ExpireOffer(p) !in s.held :: ExpireOffer(p)) == {};
    }
  }

  /** Only the ride's rider accepts, while ride and offer are PENDING. */
  lemma AcceptRepliesIff(s: State, rider: UserId, offer: OfferId, trip: TripId)
    requires Schema(s.db)
    ensures var d := s.db; var reply := AcceptOffer(s, rider, offer, trip).reply;
      var mine := offer in d.offers && d.rides[offer.ride].riderId == rider;
      var open := mine && d.rides[offer.ride].status == RidePending && d.offers[offer].status == OfferPending;
      var taken := trip in d.trips || exists t :: t in d.trips && d.trips[t].rideId == offer.ride;
      && (reply == Ok <==> open && !taken)
      && (reply == UniqueViolation <==> open && taken)
      && (reply == BadRequest <==> mine && !open)
      && (reply == Forbidden <==> offer in d.offers && !mine)
      && (reply == NotFound <==> offer !in d.offers)
    ensures AcceptOffer(s, rider, offer, trip).reply != Ok ==> AcceptOffer(s, rider, offer, trip).state == s
  {
    if t :| t in s.db.trips && s.db.trips[t].rideId == offer.ride {
      assert s.db.tripByRide[offer.ride] == t;
    }
  }

  /** The offer is ACCEPTED, the ride's other PENDING ones EXPIRED, the ride MATCHED with a trip at the offer's fare. */
  lemma AcceptEffect(s: State, rider: UserId, offer: OfferId, trip: TripId)
    requires Schema(s.db) && AcceptOffer(s, rider, offer, trip).reply == Ok
    ensures offer in s.db.offers
    ensures var d := s.db; var e := AcceptOffer(s, rider, offer, trip).state.db; var ride := offer.ride;
      && e.users == d.users && e.profiles == d.profiles && e.profileByUser == d.profileByUser
      && e.rides == d.rides[ride := d.rides[ride].(status := RideMatched)]
      && e.trips == d.trips[trip := Trip(ride, d.profiles[offer.driver].userId, rider, d.offers[offer].fare,
                                         TripMatched, None)]
      && e.tripByRide == d.tripByRide[ride := trip]
      && e.offers.Keys == d.offers.Keys && e.offers[offer] == d.offers[offer].(status := OfferAccepted)
      && (forall o :: o in d.offers && o != offer ==>
            e.offers[o] == if o.ride == ride && d.offers[o].status == OfferPending
                           then d.offers[o].(status := OfferExpired) else d.offers[o])
  {
  }

  /** The jobs of the offers it settles are gone, those a worker holds apart; no other job is touched. */
  lemma AcceptUnschedules(s: State, rider: UserId, offer: OfferId, trip: TripId, job: Job)
    requires Schema(s.db) && AcceptOffer(s, rider, offer, trip).reply == Ok
    ensures var s' := AcceptOffer(s, rider, offer, trip).state; var d := s.db;
      var settled := job.ExpireOffer? && (job.offer == offer || (job.offer.ride == offer.ride && job.offer in d.offers
                                                                 && d.offers[job.offer].status == OfferPending));
      && s'.held == s.held && s'.now == s.now && s'.expirySeconds == s.expirySeconds
      && (job in s'.jobs <==> job in s.jobs && (settled ==> job in s.held))
      && (job in s'.finished <==> job in s.finished && (settled ==> job in s.held))
      && (job in s'.jobs ==> s'.jobs[job] == s.jobs[job])
  {
  }

  /** It is recorded and announced, to the drivers with another PENDING offer on the ride. */
  lemma AcceptTells(s: State, rider: UserId, offer: OfferId, trip: TripId)
    requires Schema(s.db) && AcceptOffer(s, rider, offer, trip).reply == Ok
    ensures var s' := AcceptOffer(s, rider, offer, trip).state;
      exists told: set<UserId> ::
        && s'.log == s.log + [Accepted(offer, trip), OfferAcceptedEvent(offer, trip, told)]
        && forall u :: u in told <==> IsBidding(s.db, u, offer.ride, Some(offer))
  {
    var others := OtherPending(s.db, offer);
    var told := DriverUsers(s.db, others);
    forall u ensures u in told <==> IsBidding(s.db, u, offer.ride, Some(offer)) {
      if o: OfferId :| o in s.db.offers && o.ride == offer.ride && s.db.offers[o].status == OfferPending
                       && s.db.profiles[o.driver].userId == u && Some(o) != Some(offer) {
        assert o in others;
      }
    }
    var s' := AcceptOffer(s, rider, offer, trip).state;
    assert s'.log == s.log + [Accepted(offer, trip)] + [OfferAcceptedEvent(offer, trip, told)];
  }

  // ------------------------------------------------------------------ Rides

  /** A rider in rider mode creates a PENDING ride under a fresh id; otherwise nothing happens. */
  lemma CreateEffect(s: State, id: RideId, rider: UserId, fare: real)
    requires Schema(s.db)
    ensures CreateRide(s, id, rider, fare).reply == if id in s.db.rides then UniqueViolation else Ok
    ensures Apply(s, DoCreateRide(id, rider, fare)) ==
      if rider in s.db.users && s.db.users[rider] == RiderMode && id !in s.db.rides
      then s.(db := s.db.(rides := s.db.rides[id := Ride(rider, fare, RidePending, None)])) else s
  {
  }

  /** A row in the trips table says that the user drives the ride. */
  ghost predicate Drives(d: Db, user: UserId, ride: RideId) {
    exists t :: t in d.trips && d.trips[t].rideId == ride && d.trips[t].driverId == user
  }

  /** Only the ride's rider, or the driver of its trip, cancels it, while it is PENDING or MATCHED. */
  lemma CancelSucceedsIff(s: State, ride: RideId, user: UserId, reason: Option<string>)
    requires Schema(s.db)
    ensures var d := s.db; var reply := CancelRide(s, ride, user, reason).reply;
      var party := ride in d.rides && (d.rides[ride].riderId == user || Drives(d, user, ride));
      && (reply == Ok <==> party && (d.rides[ride].status == RidePending || d.rides[ride].status == RideMatched))
      && (reply == BadRequest <==>
            party && d.rides[ride].status != RidePending && d.rides[ride].status != RideMatched)
      && (reply == Forbidden <==> ride in d.rides && !party)
      && (reply == NotFound <==> ride !in d.rides)
    ensures CancelRide(s, ride, user, reason).reply != Ok ==> CancelRide(s, ride, user, reason).state == s
  {
    if ride in s.db.rides { DriverByIndex(s.db, user, ride); }
  }

  lemma DriverByIndex(d: Db, user: UserId, ride: RideId)
    requires Indexed(d)
    ensures Drives(d, user, ride) <==>
      ride in d.tripByRide && d.tripByRide[ride] in d.trips && d.trips[d.tripByRide[ride]].driverId == user
  {
    if ride in d.tripByRide && d.trips[d.tripByRide[ride]].driverId == user {
      assert d.trips[d.tripByRide[ride]].rideId == ride;
    }
  }

  /** The ride is CANCELLED and its PENDING offers EXPIRED; an absent reason leaves a reason on file as it is. */
  lemma CancelEffect(s: State, ride: RideId, user: UserId, reason: Option<string>)
    requires Schema(s.db) && CancelRide(s, ride, user, reason).reply == Ok
    ensures ride in s.db.rides
    ensures var d := s.db; var e := CancelRide(s, ride, user, reason).state.db; var row := d.rides[ride];
      && e.users == d.users && e.profiles == d.profiles && e.profileByUser == d.profileByUser
      && e.tripByRide == d.tripByRide && e.offers.Keys == d.offers.Keys
      && e.rides == d.rides[ride := row.(status := RideCancelled,
                                         cancelReason := if reason.Some? then reason else row.cancelReason)]
      && (forall o :: o in d.offers ==>
            e.offers[o] == if o.ride == ride && d.offers[o].status == OfferPending
                           then d.offers[o].(status := OfferExpired) else d.offers[o])
  {
  }

  /** Its trip, if it has one, is CANCELLED with it. */
  lemma CancelEndsTrip(s: State, ride: RideId, user: UserId, reason: Option<string>, trip: TripId)
    requires Schema(s.db) && CancelRide(s, ride, user, reason).reply == Ok
    ensures var d := s.db; var e := CancelRide(s, ride, user, reason).state.db;
      && (trip in e.trips <==> trip in d.trips)
      && (trip in d.trips ==>
            var row := d.trips[trip];
            e.trips[trip] == if row.rideId == ride
                             then row.(status := TripCancelled,
                                       cancelReason := if reason.Some? then reason else row.cancelReason)
                             else row)
  {
  }

  /** A row in the offers table says that the user has a PENDING offer on the ride, other than one. */
  ghost predicate IsBidding(d: Db, user: UserId, ride: RideId, but: Option<OfferId>)
    requires Schema(d)
  {
    exists o: OfferId ::
      o in d.offers && o.ride == ride && d.offers[o].status == OfferPending && d.profiles[o.driver].userId == user
      && Some(o) != but
  }

  /** The queue and the clock stay; the drivers told are those with a PENDING offer on the ride. */
  lemma CancelTells(s: State, ride: RideId, user: UserId, reason: Option<string>)
    requires Schema(s.db) && CancelRide(s, ride, user, reason).reply == Ok
    ensures var s' := CancelRide(s, ride, user, reason).state;
      && s' == s.(db := s'.db, log := s'.log)
      && exists told: set<UserId> ::
           && s'.log == s.log + [RideCancelledEvent(ride, told)]
           && forall u :: u in told <==> IsBidding(s.db, u, ride, None)
  {
    var told := DriverUsers(s.db, PendingFor(s.db.offers, ride));
    forall u ensures u in told <==> IsBidding(s.db, u, ride, None) {
      if o: OfferId :| o in s.db.offers && o.ride == ride && s.db.offers[o].status == OfferPending
                       && s.db.profiles[o.driver].userId == u {
        assert o in PendingFor(s.db.offers, ride);
      }
    }
  }

  /** Who may look at a ride: its rider, whoever has offered on it, and the driver of its trip. */
  lemma ViewIff(d: Db, ride: RideId, user: UserId)
    requires Schema(d) && ride in d.rides
    ensures CanView(d, ride, user) <==>
      || d.rides[ride].riderId == user
      || Drives(d, user, ride)
      || exists o :: o in d.offers && o.ride == ride && d.profiles[o.driver].userId == user
  {
    DriverByIndex(d, user, ride);
  }

  // ------------------------------------------------------------------- Jobs

  /** A due job of an offer expires it if it is PENDING, and says so; either way the job is done. */
  lemma OfferJobEffect(s: State, o: OfferId)
    requires Schema(s.db) && ExpireOffer(o) in s.jobs && s.jobs[ExpireOffer(o)] <= s.now
    ensures var s' := Apply(s, DoJob(ExpireOffer(o))); var job := ExpireOffer(o);
      && s'.jobs == s.jobs - {job} && s'.held == s.held - {job} && s'.finished == s.finished + {job}
      && (if o in s.db.offers && s.db.offers[o].status == OfferPending
          then && s'.db == s.db.(offers := s.db.offers[o := Offer(s.db.offers[o].fare, OfferExpired)])
               && s'.log == s.log + [OfferExpiredEvent(o, s.db.profiles[o.driver].userId)]
          else s'.db == s.db && s'.log == s.log)
  {
  }

  /** A due job of a driver expires the PENDING offers of a driver who is off line, and tells no one. */
  lemma DriverJobEffect(s: State, driver: ProfileId)
    requires Schema(s.db) && ExpireDriverOffers(driver) in s.jobs && s.jobs[ExpireDriverOffers(driver)] <= s.now
    ensures var s' := Apply(s, DoJob(ExpireDriverOffers(driver))); var job := ExpireDriverOffers(driver);
      && s'.jobs == s.jobs - {job} && s'.held == s.held - {job} && s'.finished == s.finished + {job}
      && s'.log == s.log && s'.db == s.db.(offers := s'.db.offers) && s'.db.offers.Keys == s.db.offers.Keys
      && (forall o :: o in s.db.offers ==>
            s'.db.offers[o] ==
              if o.driver == driver && s.db.offers[o].status == OfferPending && !s.db.profiles[driver].isOnline
              then Offer(s.db.offers[o].fare, OfferExpired) else s.db.offers[o])
  {
  }

  /** A job that does not wait, or is not due, does nothing. */
  lemma EarlyJobEffect(s: State, job: Job)
    requires Schema(s.db) && (job in s.jobs ==> s.now < s.jobs[job])
    ensures Apply(s, DoJob(job)) == s
  {
  }

  /** A disconnect takes the driver off line and, if the queue does not have the driver's job, adds it. */
  lemma DisconnectEffect(s: State, driver: ProfileId)
    requires Schema(s.db)
    ensures var s' := Apply(s, Elsewhere(Disconnect(driver))); var job := ExpireDriverOffers(driver);
      if driver !in s.db.profiles then s' == s
      else
        && s' == s.(db := s.db.(profiles := s.db.profiles[driver := s.db.profiles[driver].(isOnline := false)]),
                    jobs := s'.jobs)
        && s'.jobs == if job in s.jobs || job in s.held || job in s.finished then s.jobs
                      else s.jobs[job := s.now + s.expirySeconds * 1000]
  {
  }

  // ---------------------------------------------------------- Who moves rides

  /**
   * The steps that may change the status of a ride, and on whose authority: its
   * rider by accepting one of its PENDING offers while it is PENDING; its rider
   * or the driver of its trip by cancelling it while it is PENDING or MATCHED;
   * the driver of its trip, in driver mode and with a profile, by starting and
   * then completing the trip.
   */
  ghost predicate MayMove(s: State, step: Step, r: RideId)
    requires r in s.db.rides
  {
    var d := s.db;
    match step
    case DoAccept(rider, offer, trip) =>
      && offer.ride == r && offer in d.offers && d.offers[offer].status == OfferPending
      && d.rides[r].riderId == rider && d.rides[r].status == RidePending && trip !in d.trips
    case DoCancel(ride, user, _) =>
      && ride == r && (d.rides[r].status == RidePending || d.rides[r].status == RideMatched)
      && (d.rides[r].riderId == user || Drives(d, user, r))
    case DoStart(trip, user) =>
      && trip in d.trips && d.trips[trip].rideId == r && d.trips[trip].driverId == user
      && d.rides[r].status == RideMatched
      && user in d.users && d.users[user] == DriverMode && user in d.profileByUser
    case DoComplete(trip, user) =>
      && trip in d.trips && d.trips[trip].rideId == r && d.trips[trip].driverId == user
      && d.rides[r].status == RideInProgress
      && user in d.users && d.users[user] == DriverMode && user in d.profileByUser
    case _ => false
  }

  lemma AcceptMovesIff(s: State, rider: UserId, offer: OfferId, trip: TripId, r: RideId)
    requires Coupled(s.db) && r in s.db.rides
    ensures var e := AcceptOffer(s, rider, offer, trip).state.db;
      && r in e.rides
      && (e.rides[r].status != s.db.rides[r].status <==> MayMove(s, DoAccept(rider, offer, trip), r))
  {
    AcceptRepliesIff(s, rider, offer, trip);
    if AcceptOffer(s, rider, offer, trip).reply == Ok { AcceptEffect(s, rider, offer, trip); }
    if t :| t in s.db.trips && s.db.trips[t].rideId == offer.ride {
      assert RideCoupled(s.db, offer.ride) && s.db.tripByRide[offer.ride] == t;
    }
  }

  lemma CancelMovesIff(s: State, ride: RideId, user: UserId, reason: Option<string>, r: RideId)
    requires Schema(s.db) && r in s.db.rides
    ensures var e := CancelRide(s, ride, user, reason).state.db;
      && r in e.rides
      && (e.rides[r].status != s.db.rides[r].status <==> MayMove(s, DoCancel(ride, user, reason), r))
  {
    CancelSucceedsIff(s, ride, user, reason);
    if CancelRide(s, ride, user, reason).reply == Ok { CancelEffect(s, ride, user, reason); }
  }

  lemma StartMovesIff(s: State, trip: TripId, user: UserId, r: RideId)
    requires Coupled(s.db) && r in s.db.rides
    ensures var e := StartTrip(s, trip, user).state.db;
      r in e.rides && (e.rides[r].status != s.db.rides[r].status <==> MayMove(s, DoStart(trip, user), r))
  {
    StartSucceedsIff(s, trip, user);
    if trip in s.db.trips { assert RideCoupled(s.db, s.db.trips[trip].rideId); }
  }

  lemma CompleteMovesIff(s: State, trip: TripId, user: UserId, r: RideId)
    requires Coupled(s.db) && r in s.db.rides
    ensures var e := CompleteTrip(s, trip, user).state.db;
      r in e.rides && (e.rides[r].status != s.db.rides[r].status <==> MayMove(s, DoComplete(trip, user), r))
  {
    CompleteSucceedsIff(s, trip, user);
    if trip in s.db.trips { assert RideCoupled(s.db, s.db.trips[trip].rideId); }
  }

  lemma OthersMoveNoRide(s: State, step: Step, r: RideId)
    requires Schema(s.db) && r in s.db.rides
    requires !step.DoAccept? && !step.DoCancel? && !step.DoStart? && !step.DoComplete?
    ensures r in Apply(s, step).db.rides && Apply(s, step).db.rides[r] == s.db.rides[r]
  {
    match step
    case DoSubmit(driver, ride, fare) =>
      SubmitSucceedsIff(s, driver, ride, fare);
      if SubmitOffer(s, driver, ride, fare).reply == Ok { SubmitEffect(s, driver, ride, fare); }
    case DoCreateRide(id, rider, fare) => CreateEffect(s, id, rider, fare);
    case DoJob(_) =>
    case Tick(_) =>
    case Elsewhere(_) =>
  }

  /** Level A, in every coupled state: a step changes the status of a ride exactly when MayMove says so. */
  lemma RideMovesIff(s: State, step: Step, r: RideId)
    requires Coupled(s.db) && r in s.db.rides
    ensures r in Apply(s, step).db.rides
    ensures Apply(s, step).db.rides[r].status != s.db.rides[r].status <==> MayMove(s, step, r)
  {
    match step
    case DoAccept(rider, offer, trip) => AcceptMovesIff(s, rider, offer, trip, r);
    case DoCancel(ride, user, reason) => CancelMovesIff(s, ride, user, reason, r);
    case DoStart(trip, user) => StartMovesIff(s, trip, user, r);
    case DoComplete(trip, user) => CompleteMovesIff(s, trip, user, r);
    case _ => OthersMoveNoRide(s, step, r);
  }
}
