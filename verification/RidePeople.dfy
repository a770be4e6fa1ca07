/**
 * Level A. The people on rides, offers and trips: rows keep them through every
 * step, they are all users, and exactly when a driver is their own rider.
 */
module RidePeople {
  import opened Common
  import opened RideModel
  import opened RideInvariant
  import L = RideInterleaving

  /** The write a call reaches, if it reaches one. */
  function WriteOf(s: State, step: Step): Option<Commit>
    requires Schema(s.db) && IsCall(step)
  {
    match step
    case DoSubmit(driver, ride, fare) =>
      if ProfileOf(s.db, driver).Some? && CheckRideOpen(s.db, ride).Pass?
      then Some(Upsert(OfferId(ride, ProfileOf(s.db, driver).value), fare)) else None
    case DoAccept(rider, offer, trip) =>
      if CheckAccept(s.db, rider, offer).Pass? then Some(Accept(CheckAccept(s.db, rider, offer).value, trip)) else None
    case DoCancel(ride, user, reason) =>
      if CheckCancel(s.db, ride, user).Pass? then Some(Cancel(CheckCancel(s.db, ride, user).value, reason)) else None
    case DoStart(trip, user) =>
      if CanActivate(s.db, user, DriverMode) && CheckTrip(s.db, trip, user, TripMatched).Pass?
      then Some(Start(trip, s.db.trips[trip].rideId)) else None
    case DoComplete(trip, user) =>
      if CanActivate(s.db, user, DriverMode) && CheckTrip(s.db, trip, user, TripStarted).Pass?
      then Some(Complete(trip, s.db.trips[trip].rideId)) else None
    case DoJob(job) =>
      if job !in s.jobs || s.jobs[job] > s.now then None else
      (match job
       case ExpireOffer(offer) => if IsPending(s.db, offer) then Some(ExpireOne(offer)) else None
       case ExpireDriverOffers(driver) => if DriverIsAway(s.db, driver) then Some(ExpireAll(driver)) else None)
  }

  /** A call's whole effect on the tables is at most one transaction. */
  lemma CallIsAWrite(s: State, step: Step)
    requires Schema(s.db) && IsCall(step)
    ensures WriteOf(s, step).Some? ==> Holds(s.db, WriteOf(s, step).value)
    ensures Apply(s, step).db == if WriteOf(s, step).Some? then Perform(s.db, WriteOf(s, step).value) else s.db
  {
    match step
    case DoJob(ExpireOffer(offer)) =>
    case DoJob(ExpireDriverOffers(driver)) =>
    case _ =>
  }

  lemma StepGrows(s: State, step: Step)
    requires Schema(s.db)
    ensures Grows(s.db, Apply(s, step).db)
  {
    if IsCall(step) {
      CallIsAWrite(s, step);
      if WriteOf(s, step).Some? { PerformKeepsSchema(s.db, WriteOf(s, step).value); }
    } else {
      L.OutsideGrows(s, step);
    }
  }

  // ------------------------------------------------------------- All users

  /** The foreign keys to users. */
  ghost predicate UsersKnown(d: Db) {
    && (forall r :: r in d.rides ==> d.rides[r].riderId in d.users)
    && (forall p :: p in d.profiles ==> d.profiles[p].userId in d.users)
    && (forall t :: t in d.trips ==> d.trips[t].riderId in d.users && d.trips[t].driverId in d.users)
  }

  lemma AcceptKeepsUsersKnown(d: Db, k: AcceptTicket, trip: TripId)
    requires Schema(d) && UsersKnown(d) && AcceptTicketHolds(d, k)
    ensures UsersKnown(CommitAccept(d, k, trip))
  {
    assert d.profiles[k.offer.driver].userId == k.driver;
  }

  lemma PerformKeepsUsersKnown(d: Db, c: Commit)
    requires Schema(d) && UsersKnown(d) && Holds(d, c)
    ensures UsersKnown(Perform(d, c))
  {
    if c.Accept? { AcceptKeepsUsersKnown(d, c.accept, c.trip); }
  }

  lemma StepKeepsUsersKnown(s: State, step: Step)
    requires Schema(s.db) && UsersKnown(s.db)
    ensures UsersKnown(Apply(s, step).db)
  {
    if IsCall(step) {
      CallIsAWrite(s, step);
      if WriteOf(s, step).Some? { PerformKeepsUsersKnown(s.db, WriteOf(s, step).value); }
    } else if step.Elsewhere? {
      OtherKeepsUsersKnown(s.db, step.other);
    }
  }

  lemma OtherKeepsUsersKnown(d: Db, step: OtherStep)
    requires UsersKnown(d)
    ensures UsersKnown(OtherTables(d, step))
  {
  }

  /** Level A, every run: riders, profile owners and the people on trips are users. */
  lemma {:induction false} RunKeepsUsersKnown(s: State, steps: seq<Step>)
    requires Coupled(s.db) && UsersKnown(s.db)
    ensures UsersKnown(Run(s, steps).db)
    decreases |steps|
  {
    if steps != [] {
      StepIsSound(s, steps[0]);
      StepKeepsUsersKnown(s, steps[0]);
      RunKeepsUsersKnown(Apply(s, steps[0]), steps[1..]);
    }
  }

  // ---------------------------------------------------------- One's own rider

  ghost predicate NoSelfOffers(d: Db)
    requires Schema(d)
  {
    forall o :: o in d.offers ==> d.profiles[o.driver].userId != d.rides[o.ride].riderId
  }

  /** An offer on the driver's own open ride: submitOffer does not look. */
  predicate OffersToSelf(s: State, step: Step)
    requires Schema(s.db)
  {
    && step.DoSubmit? && step.driver in s.db.profileByUser
    && step.ride in s.db.rides && s.db.rides[step.ride].status == RidePending
    && s.db.rides[step.ride].riderId == step.driver
  }

  /** Offer rows are only added by upserts. */
  lemma PerformOfferKeys(d: Db, c: Commit)
    requires Holds(d, c)
    ensures Perform(d, c).offers.Keys == d.offers.Keys + if c.Upsert? then {c.offer} else {}
  {
  }

  /** Level A. A step keeps drivers off their own rides unless it is an offer on one. */
  lemma NoSelfOffersIff(s: State, step: Step)
    requires Coupled(s.db) && NoSelfOffers(s.db)
    ensures Schema(Apply(s, step).db)
    ensures NoSelfOffers(Apply(s, step).db) <==> !OffersToSelf(s, step)
  {
    StepIsSound(s, step);
    StepGrows(s, step);
    OfferKeys(s, step);
    var d, e := s.db, Apply(s, step).db;
    if step.DoSubmit? && WriteOf(s, step).Some? {
      var o := OfferId(step.ride, d.profileByUser[step.driver]);
      AddedOffersDecide(d, e, {o});
      assert e.profiles[o.driver].userId == step.driver && e.rides[o.ride].riderId == d.rides[step.ride].riderId;
    } else {
      AddedOffersDecide(d, e, {});
    }
  }

  /** People on rows do not change, so only the offers added decide. */
  lemma AddedOffersDecide(d: Db, e: Db, added: set<OfferId>)
    requires Schema(d) && Schema(e) && Grows(d, e) && NoSelfOffers(d) && e.offers.Keys == d.offers.Keys + added
    ensures NoSelfOffers(e) <==> forall o :: o in added ==> e.profiles[o.driver].userId != e.rides[o.ride].riderId
  {
    forall o | o in d.offers ensures e.profiles[o.driver].userId != e.rides[o.ride].riderId {
      assert d.profiles[o.driver].userId != d.rides[o.ride].riderId;
    }
  }

  lemma OfferKeys(s: State, step: Step)
    requires Schema(s.db)
    ensures Apply(s, step).db.offers.Keys
         == s.db.offers.Keys + if step.DoSubmit? && WriteOf(s, step).Some? then {WriteOf(s, step).value.offer} else {}
  {
    if IsCall(step) {
      CallIsAWrite(s, step);
      if WriteOf(s, step).Some? { PerformOfferKeys(s.db, WriteOf(s, step).value); }
    } else {
      L.OutsideGrows(s, step);
    }
  }

  ghost predicate NeverToSelf(s: State, steps: seq<Step>)
    requires Coupled(s.db)
    decreases |steps|
  {
    if steps == [] then true else
    StepIsSound(s, steps[0]);
    !OffersToSelf(s, steps[0]) && NeverToSelf(Apply(s, steps[0]), steps[1..])
  }

  ghost predicate AlwaysOthers(s: State, steps: seq<Step>)
    requires Coupled(s.db)
    decreases |steps|
  {
    if steps == [] then NoSelfOffers(s.db) else
    StepIsSound(s, steps[0]);
    NoSelfOffers(s.db) && AlwaysOthers(Apply(s, steps[0]), steps[1..])
  }

  /** Level A, every run: no offer is ever its driver's to themselves exactly when none is submitted so. */
  lemma {:induction false} AlwaysOthersIff(s: State, steps: seq<Step>)
    requires Coupled(s.db) && NoSelfOffers(s.db)
    ensures AlwaysOthers(s, steps) <==> NeverToSelf(s, steps)
    decreases |steps|
  {
    if steps != [] {
      StepIsSound(s, steps[0]);
      NoSelfOffersIff(s, steps[0]);
      if !OffersToSelf(s, steps[0]) { AlwaysOthersIff(Apply(s, steps[0]), steps[1..]); }
    }
  }

  /** Then no one drives their own trip. */
  lemma OthersDrive(d: Db, t: TripId)
    requires Coupled(d) && NoSelfOffers(d) && t in d.trips
    ensures d.trips[t].driverId != d.trips[t].riderId
  {
    assert RideCoupled(d, d.trips[t].rideId);
    assert OfferOf(d, d.trips[t]).value in d.offers;
  }

  /** An accept makes its trip a self-driven one exactly when its offer is the rider's own. */
  lemma SelfDrivenIff(s: State, rider: UserId, offer: OfferId, trip: TripId)
    requires Schema(s.db) && AcceptOffer(s, rider, offer, trip).reply == Ok
    ensures var d := AcceptOffer(s, rider, offer, trip).state.db;
      && trip in d.trips && offer.driver in s.db.profiles
      && (d.trips[trip].driverId == d.trips[trip].riderId <==> s.db.profiles[offer.driver].userId == rider)
  {
  }

  // The witness: user 1 with profile 7, their own ride 10, and trip 20.

  const OWN := OfferId(10, 7)

  function Own(ride: RideStatus, offers: map<OfferId, Offer>): Db {
    Db(map[1 := RiderMode], map[7 := Profile(1, false)], map[1 := 7], map[10 := Ride(1, 5.0, ride, None)], offers,
       map[], map[])
  }

  /** Some run reaches the state from empty. */
  ghost predicate Reached(s: State) {
    exists steps :: RunFromEmpty(60, steps) == s
  }

  lemma {:induction false} RunAppend(s: State, steps: seq<Step>, step: Step)
    requires Coupled(s.db)
    ensures Run(s, steps + [step]) == Apply(Run(s, steps), step)
    decreases |steps|
  {
    StepIsSound(s, (steps + [step])[0]);
    if steps == [] {
      assert Run(Apply(s, step), []) == Apply(s, step);
    } else {
      assert (steps + [step])[1..] == steps[1..] + [step];
      RunAppend(Apply(s, steps[0]), steps[1..], step);
    }
  }

  lemma ReachedStep(s: State, step: Step)
    requires Reached(s) && Coupled(s.db)
    ensures Reached(Apply(s, step)) && Coupled(Apply(s, step).db)
  {
    var steps :| RunFromEmpty(60, steps) == s;
    RunAppend(Initial(60), steps, step);
    StepIsSound(s, step);
    assert RunFromEmpty(60, steps + [step]) == Apply(s, step);
  }

  lemma AProfile() returns (s: State)
    ensures Reached(s) && Coupled(s.db)
    ensures s.db == Db(map[1 := RiderMode], map[7 := Profile(1, false)], map[1 := 7], map[], map[], map[], map[])
  {
    var s0 := RunFromEmpty(60, []);
    ReachedStep(s0, Elsewhere(Register(1)));
    var s1 := Apply(s0, Elsewhere(Register(1)));
    ReachedStep(s1, Elsewhere(Verify(7, 1)));
    s := Apply(s1, Elsewhere(Verify(7, 1)));
  }

  lemma AnOwnOffer() returns (s: State)
    ensures Reached(s) && Coupled(s.db) && s.db == Own(RidePending, map[OWN := Offer(6.0, OfferPending)])
  {
    var s0 := AProfile();
    ReachedStep(s0, DoCreateRide(10, 1, 5.0));
    var s1 := Apply(s0, DoCreateRide(10, 1, 5.0));
    assert s1.db == Own(RidePending, map[]);
    ReachedStep(s1, DoSubmit(1, 10, 6.0));
    s := Apply(s1, DoSubmit(1, 10, 6.0));
  }

  /** Level A. submitOffer does not compare driver and rider, so a user can drive their own trip. */
  lemma OneCanDriveOneself()
    ensures exists s :: Reached(s) && 20 in s.db.trips && s.db.trips[20].driverId == s.db.trips[20].riderId
  {
    var s := AnOwnOffer();
    ReachedStep(s, DoAccept(1, OWN, 20));
    SelfDrivenIff(s, 1, OWN, 20);
  }
}
