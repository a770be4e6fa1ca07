/**
 * Level B: any number of calls in flight at once. Each database read, each
 * transaction and each queue operation is a step of its own; between any two,
 * other calls may run or the call may die. A commit uses what its call read
 * earlier. A waiting job may be delivered at any time: its worker holds it until
 * it acknowledges it. A held job may return to the queue at any time, as after a
 * failed attempt or a worker's death, and so be delivered any number of times;
 * or its attempts may be used up.
 */
module RideInterleaving {
  import opened Common
  import opened RideModel
  import opened RideInvariant

  /** What a call in flight will do next. */
  datatype Cont =
    | FindRide(driver: ProfileId, wantedRide: RideId, fare: real)
    | WriteOffer(offer: OfferId, fare: real, rider: UserId)
    | RemoveOldJob(offer: OfferId, rider: UserId)
    | AddNewJob(offer: OfferId, rider: UserId)
    | ReadOthers(accept: AcceptTicket, trip: TripId)
    | WriteAccept(accept: AcceptTicket, trip: TripId, others: set<OfferId>)
    | RemoveJobs(accept: AcceptTicket, trip: TripId, others: set<OfferId>)
    | WriteCancel(cancel: CancelTicket, reason: Option<string>)
    | ReadTrip(trip: TripId, user: UserId, starting: bool)
    | WriteTrip(trip: TripId, ride: RideId, starting: bool)
    | WriteExpiry(offer: OfferId, worker: nat)
    | WriteDriverExpiry(profile: ProfileId, worker: nat)
    | Acknowledge(job: Job, worker: nat)

  datatype Sys = Sys(s: State, calls: map<nat, Cont>)

  datatype Event =
    | Begin(id: nat, call: Step)  // a call arrives and makes its first read
    | Resume(id: nat)
    | Crash(id: nat)
    | Requeue(held: Job, due: Millis)  // a held job waits again
    | GiveUp(held: Job)                // a held job has no attempt left

  datatype Progress = Progress(s: State, next: Option<Cont>)

  /** What the call does after its first read; a worker locks its job under its own id. */
  function First(s: State, id: nat, call: Step): Option<Cont>
    requires Schema(s.db) && IsCall(call)
  {
    match call
    case DoSubmit(driver, ride, fare) =>
      var profile := ProfileOf(s.db, driver);
      if profile.None? then None else Some(FindRide(profile.value, ride, fare))
    case DoAccept(rider, offer, trip) =>
      var check := CheckAccept(s.db, rider, offer);
      if check.Fail? then None else Some(ReadOthers(check.value, trip))
    case DoCancel(ride, user, reason) =>
      var check := CheckCancel(s.db, ride, user);
      if check.Fail? then None else Some(WriteCancel(check.value, reason))
    case DoStart(trip, user) =>
      if CanActivate(s.db, user, DriverMode) then Some(ReadTrip(trip, user, true)) else None
    case DoComplete(trip, user) =>
      if CanActivate(s.db, user, DriverMode) then Some(ReadTrip(trip, user, false)) else None
    case DoJob(ExpireOffer(offer)) =>
      Some(if IsPending(s.db, offer) then WriteExpiry(offer, id) else Acknowledge(call.job, id))
    case DoJob(ExpireDriverOffers(driver)) =>
      Some(if DriverIsAway(s.db, driver) then WriteDriverExpiry(driver, id) else Acknowledge(call.job, id))
  }

  /** The write a continuation is about to make, if that is its next step. */
  function CommitOf(k: Cont): Option<Commit> {
    match k
    case WriteOffer(offer, fare, _) => Some(Upsert(offer, fare))
    case WriteAccept(t, trip, _) => Some(Accept(t, trip))
    case WriteCancel(t, reason) => Some(Cancel(t, reason))
    case WriteTrip(trip, ride, starting) => Some(if starting then Start(trip, ride) else Complete(trip, ride))
    case WriteExpiry(offer, _) => Some(ExpireOne(offer))
    case WriteDriverExpiry(driver, _) => Some(ExpireAll(driver))
    case _ => None
  }

  /** What a call in flight remembers is still true. */
  ghost predicate Remembers(s: State, k: Cont) {
    && (CommitOf(k).Some? ==> Holds(s.db, CommitOf(k).value))
    && match k
       case FindRide(driver, _, _) => driver in s.db.profiles
       case ReadOthers(t, _) => AcceptTicketHolds(s.db, t) && WasSubmitted(s.log, t.offer, t.fare)
       case WriteAccept(t, _, others) =>
         && WasSubmitted(s.log, t.offer, t.fare)
         && forall o :: o in others ==> o.ride == t.offer.ride && o.driver in s.db.profiles
       case RemoveJobs(_, _, others) => forall o :: o in others ==> o.driver in s.db.profiles
       case _ => true
  }

  ghost predicate WasSubmitted(log: seq<Entry>, offer: OfferId, fare: real) {
    exists at :: Submitted(offer, fare, at) in log
  }

  function Next(s: State, k: Cont): Progress
    requires Schema(s.db) && Remembers(s, k)
  {
    match k
    case FindRide(driver, ride, fare) =>
      (match CheckRideOpen(s.db, ride)
       case Fail(_) => Progress(s, None)
       case Pass(rider) => Progress(s, Some(WriteOffer(OfferId(ride, driver), fare, rider))))
    case WriteOffer(offer, fare, rider) =>
      var s1 := Write(s, CommitUpsert(s.db, offer, fare), Submitted(offer, fare, s.now));
      Progress(s1, Some(RemoveOldJob(offer, rider)))
    case RemoveOldJob(offer, rider) => Progress(Unschedule(s, {offer}), Some(AddNewJob(offer, rider)))
    case AddNewJob(offer, rider) => Progress(Emit(Schedule(s, offer), OfferSubmittedEvent(offer, rider)), None)
    case ReadOthers(t, trip) => Progress(s, Some(WriteAccept(t, trip, OtherPending(s.db, t.offer))))
    case WriteAccept(t, trip, others) =>
      if AcceptClashes(s.db, t, trip) then Progress(s, None)
      else Progress(Write(s, CommitAccept(s.db, t, trip), Accepted(t.offer, trip)), Some(RemoveJobs(t, trip, others)))
    case RemoveJobs(t, trip, others) =>
      var e := OfferAcceptedEvent(t.offer, trip, DriverUsers(s.db, others));
      Progress(Emit(Unschedule(s, {t.offer} + others), e), None)
    case WriteCancel(t, reason) =>
      Progress(Write(s, CommitCancel(s.db, t, reason), RideCancelledEvent(t.ride, t.affected)), None)
    case ReadTrip(trip, user, starting) =>
      (match CheckTrip(s.db, trip, user, if starting then TripMatched else TripStarted)
       case Fail(_) => Progress(s, None)
       case Pass(ride) => Progress(s, Some(WriteTrip(trip, ride, starting))))
    case WriteTrip(trip, ride, true) =>
      Progress(Write(s, CommitTrip(s.db, trip, ride, TripStarted, RideInProgress), TripStartedEvent(trip)), None)
    case WriteTrip(trip, ride, false) =>
      Progress(Write(s, CommitTrip(s.db, trip, ride, TripCompleted, RideCompleted), TripCompletedEvent(trip)), None)
    case WriteExpiry(offer, worker) =>
      var s1 := Write(s, CommitExpire(s.db, offer), OfferExpiredEvent(offer, s.db.profiles[offer.driver].userId));
      Progress(s1, Some(Acknowledge(ExpireOffer(offer), worker)))
    case WriteDriverExpiry(driver, worker) =>
      Progress(s.(db := CommitExpireDriver(s.db, driver)), Some(Acknowledge(ExpireDriverOffers(driver), worker)))
    case Acknowledge(job, worker) => Progress(Release(s, job, worker), None)
  }

  /** A worker is done with its job, unless it has lost the lock. */
  function Release(s: State, job: Job, worker: nat): State {
    if job in s.held && s.held[job] == worker then Settle(s, job) else s
  }

  // ------------------------------------------------- One call on its own

  function StepsLeft(k: Cont): nat {
    match k
    case FindRide(_, _, _) => 4
    case WriteOffer(_, _, _) => 3
    case RemoveOldJob(_, _) => 2
    case AddNewJob(_, _) => 1
    case ReadOthers(_, _) => 3
    case WriteAccept(_, _, _) => 2
    case ReadTrip(_, _, _) => 2
    case WriteExpiry(_, _) => 2
    case WriteDriverExpiry(_, _) => 2
    case _ => 1
  }

  /** A step's effect on the tables is its commit, if it makes one. */
  lemma NextPerforms(s: State, k: Cont)
    requires Schema(s.db) && Remembers(s, k)
    ensures Next(s, k).s.db == if CommitOf(k).Some? then Perform(s.db, CommitOf(k).value) else s.db
    ensures s.log <= Next(s, k).s.log
  {
    match CommitOf(k)
    case None =>
    case Some(c) => assert k.WriteAccept? && AcceptClashes(s.db, k.accept, k.trip) ==> Perform(s.db, c) == s.db;
  }

  lemma NextHandsOn(s: State, k: Cont)
    requires Schema(s.db) && Remembers(s, k)
    ensures var p := Next(s, k);
      p.next.Some? ==> Remembers(p.s, p.next.value) && StepsLeft(p.next.value) < StepsLeft(k)
  {
  }

  lemma NextRemembers(s: State, k: Cont)
    requires Schema(s.db) && Remembers(s, k)
    ensures var p := Next(s, k);
      && Schema(p.s.db)
      && (p.next.Some? ==> Remembers(p.s, p.next.value) && StepsLeft(p.next.value) < StepsLeft(k))
  {
    NextPerforms(s, k);
    if CommitOf(k).Some? {
      PerformKeepsSchema(s.db, CommitOf(k).value);
    }
    NextHandsOn(s, k);
  }

  /** A call left alone from its continuation to its end. */
  ghost function Finish(s: State, k: Cont): State
    requires Schema(s.db) && Remembers(s, k)
    decreases StepsLeft(k)
  {
    NextRemembers(s, k);
    var p := Next(s, k);
    if p.next.None? then p.s else Finish(p.s, p.next.value)
  }

  /** A call can start, unless it is for a job that does not wait. */
  predicate CanStart(s: State, call: Step) {
    call.DoJob? ==> call.job in s.jobs
  }

  /** A worker takes its job off the queue before it does anything else. */
  function Started(s: State, id: nat, call: Step): State {
    if call.DoJob? then Take(s, call.job, id) else s
  }

  ghost function Alone(s: State, id: nat, call: Step): State
    requires Schema(s.db) && IsCall(call)
    requires First(s, id, call).Some? ==> Remembers(s, First(s, id, call).value)
  {
    if !CanStart(s, call) || First(s, id, call).None? then s
    else Finish(Started(s, id, call), First(s, id, call).value)
  }

  /** What the call does as one step; a waiting job may run before it is due. */
  function AtOnce(s: State, call: Step): State
    requires Schema(s.db) && IsCall(call)
  {
    if call.DoJob? && call.job in s.jobs then Settle(Process(s, call.job), call.job)
    else if call.DoJob? then s
    else Apply(s, call)
  }

  lemma {:induction false} SubmitAlone(s: State, driver: ProfileId, ride: RideId, fare: real)
    requires Schema(s.db) && driver in s.db.profiles
    ensures Finish(s, FindRide(driver, ride, fare)) ==
      if CheckRideOpen(s.db, ride).Fail? then s else
      var offer := OfferId(ride, driver);
      var s1 := Write(s, CommitUpsert(s.db, offer, fare), Submitted(offer, fare, s.now));
      Emit(Schedule(Unschedule(s1, {offer}), offer), OfferSubmittedEvent(offer, CheckRideOpen(s.db, ride).value))
  {
    NextRemembers(s, FindRide(driver, ride, fare));
    if CheckRideOpen(s.db, ride).Pass? {
      var k1 := Next(s, FindRide(driver, ride, fare)).next.value;
      NextRemembers(s, k1);
      var p2 := Next(s, k1);
      NextRemembers(p2.s, p2.next.value);
      var p3 := Next(p2.s, p2.next.value);
      assert Finish(s, k1) == Finish(p2.s, p2.next.value) == Finish(p3.s, p3.next.value) == Next(p3.s, p3.next.value).s;
    }
  }

  lemma {:induction false} AcceptAlone(s: State, t: AcceptTicket, trip: TripId)
    requires Schema(s.db) && Remembers(s, ReadOthers(t, trip))
    ensures Finish(s, ReadOthers(t, trip)) ==
      if AcceptClashes(s.db, t, trip) then s else
      var others := OtherPending(s.db, t.offer);
      var s1 := Write(s, CommitAccept(s.db, t, trip), Accepted(t.offer, trip));
      Emit(Unschedule(s1, {t.offer} + others), OfferAcceptedEvent(t.offer, trip, DriverUsers(s.db, others)))
  {
    NextRemembers(s, ReadOthers(t, trip));
    var k1 := Next(s, ReadOthers(t, trip)).next.value;
    NextRemembers(s, k1);
    if !AcceptClashes(s.db, t, trip) {
      var p2 := Next(s, k1);
      assert Finish(p2.s, p2.next.value) == Next(p2.s, p2.next.value).s;
    }
  }

  lemma {:induction false} TripAlone(s: State, trip: TripId, user: UserId, starting: bool)
    requires Schema(s.db)
    ensures var check := CheckTrip(s.db, trip, user, if starting then TripMatched else TripStarted);
      Finish(s, ReadTrip(trip, user, starting)) ==
        if check.Fail? then s else Next(s, WriteTrip(trip, check.value, starting)).s
  {
    NextRemembers(s, ReadTrip(trip, user, starting));
  }

  /** A worker's whole run on a job it has taken. */
  lemma {:induction false} JobAlone(s: State, id: nat, job: Job)
    requires Schema(s.db) && job in s.held && s.held[job] == id
    ensures Remembers(s, First(s, id, DoJob(job)).value)
    ensures Finish(s, First(s, id, DoJob(job)).value) == Settle(Process(s, job), job)
  {
    var k := First(s, id, DoJob(job)).value;
    NextRemembers(s, k);
    if !k.Acknowledge? {
      var p := Next(s, k);
      assert Finish(s, k) == Finish(p.s, Acknowledge(job, id)) == Release(p.s, job, id);
    }
  }

  lemma JobCallAlone(s: State, id: nat, job: Job)
    requires Schema(s.db) && job in s.jobs
    ensures Remembers(s, First(s, id, DoJob(job)).value)
    ensures Alone(s, id, DoJob(job)) == AtOnce(s, DoJob(job))
  {
    JobAlone(Take(s, job, id), id, job);
    TakeThenSettle(s, id, job);
  }

  lemma TakeThenSettle(s: State, id: nat, job: Job)
    requires Schema(s.db)
    ensures Settle(Process(Take(s, job, id), job), job) == Settle(Process(s, job), job)
  {
    assert s.jobs - {job} - {job} == s.jobs - {job};
    assert s.held[job := id] - {job} == s.held - {job};
  }

  lemma CancelAlone(s: State, id: nat, call: Step)
    requires Schema(s.db) && call.DoCancel?
    requires First(s, id, call).Some? ==> Remembers(s, First(s, id, call).value)
    ensures Alone(s, id, call) == AtOnce(s, call)
  {
  }

  lemma TripCallAlone(s: State, id: nat, call: Step)
    requires Schema(s.db) && (call.DoStart? || call.DoComplete?)
    ensures Alone(s, id, call) == AtOnce(s, call)
  {
    if First(s, id, call).Some? {
      TripAlone(s, call.trip, call.user, call.DoStart?);
    }
  }

  lemma OfferCallAlone(s: State, id: nat, call: Step)
    requires Schema(s.db) && (call.DoSubmit? || call.DoAccept?)
    requires First(s, id, call).Some? ==> Remembers(s, First(s, id, call).value)
    ensures Alone(s, id, call) == AtOnce(s, call)
  {
    if First(s, id, call).Some? {
      match call
      case DoSubmit(driver, ride, fare) => SubmitAlone(s, ProfileOf(s.db, driver).value, ride, fare);
      case DoAccept(rider, offer, trip) => AcceptAlone(s, CheckAccept(s.db, rider, offer).value, trip);
    }
  }

  /** Level B refines to Level A: a call nothing interferes with is its single step. */
  lemma AloneIsAtOnce(s: State, id: nat, call: Step)
    requires Schema(s.db) && Recorded(s) && IsCall(call)
    ensures First(s, id, call).Some? ==> Remembers(s, First(s, id, call).value)
    ensures Alone(s, id, call) == AtOnce(s, call)
  {
    FirstRemembers(s, id, call);
    if call.DoJob? {
      if CanStart(s, call) { JobCallAlone(s, id, call.job); }
    } else if call.DoCancel? {
      CancelAlone(s, id, call);
    } else if call.DoStart? || call.DoComplete? {
      TripCallAlone(s, id, call);
    } else {
      OfferCallAlone(s, id, call);
    }
  }

  // ---------------------------------------------------------------- Safety

  /** Accept transactions committed for a ride. */
  function Accepts(log: seq<Entry>, ride: RideId): nat {
    if log == [] then 0 else
    var e := log[|log| - 1];
    Accepts(log[..|log| - 1], ride) + if e.Accepted? && e.offer.ride == ride then 1 else 0
  }

  lemma {:induction false} AcceptsAppended(log: seq<Entry>, e: Entry, ride: RideId)
    ensures Accepts(log + [e], ride) == Accepts(log, ride) + if e.Accepted? && e.offer.ride == ride then 1 else 0
  {
    assert (log + [e])[..|log|] == log;
  }

  /** A trip comes from a committed accept, of its ride, driver and rider, at a fare submitted before. */
  ghost predicate Backed(s: State, t: TripId)
    requires t in s.db.trips
  {
    var trip := s.db.trips[t];
    && trip.rideId in s.db.rides && trip.riderId == s.db.rides[trip.rideId].riderId
    && OfferOf(s.db, trip).Some?
    && Accepted(OfferOf(s.db, trip).value, t) in s.log
    && WasSubmitted(s.log, OfferOf(s.db, trip).value, trip.agreedFare)
  }

  /** An accept entry is that of its ride's trip. */
  ghost predicate Matches(s: State, offer: OfferId, t: TripId) {
    TripOf(s.db, offer.ride) == Some(t) && t in s.db.trips && OfferOf(s.db, s.db.trips[t]) == Some(offer)
  }

  ghost predicate TripsBacked(s: State) {
    forall t :: t in s.db.trips ==> Backed(s, t)
  }

  ghost predicate EntriesMatch(s: State) {
    forall o, t :: Accepted(o, t) in s.log ==> Matches(s, o, t)
  }

  ghost predicate AcceptedIsEntered(s: State) {
    forall o :: IsAccepted(s.db, o) ==> TripOf(s.db, o.ride).Some? && Accepted(o, TripOf(s.db, o.ride).value) in s.log
  }

  ghost predicate FaresSubmitted(s: State) {
    forall o :: o in s.db.offers ==> WasSubmitted(s.log, o, s.db.offers[o].fare)
  }

  ghost predicate AcceptsCounted(s: State) {
    forall r :: Accepts(s.log, r) == if TripOf(s.db, r).Some? then 1 else 0
  }

  ghost predicate Recorded(s: State) {
    TripsBacked(s) && EntriesMatch(s) && AcceptedIsEntered(s) && FaresSubmitted(s) && AcceptsCounted(s)
  }

  lemma FirstRemembers(s: State, id: nat, call: Step)
    requires Schema(s.db) && Recorded(s) && IsCall(call)
    ensures First(s, id, call).Some? ==> Remembers(s, First(s, id, call).value)
  {
  }

  // ------------------------------------------------------------- Stability

  ghost predicate StateGrows(s: State, s': State) {
    Grows(s.db, s'.db) && forall e :: e in s.log ==> e in s'.log
  }

  lemma GrowthKeepsMemory(s: State, s': State, k: Cont)
    requires Schema(s.db) && Remembers(s, k) && StateGrows(s, s')
    ensures Remembers(s', k)
  {
  }

  lemma NextGrows(s: State, k: Cont)
    requires Schema(s.db) && Remembers(s, k)
    ensures StateGrows(s, Next(s, k).s)
  {
    NextPerforms(s, k);
    if CommitOf(k).Some? {
      PerformKeepsSchema(s.db, CommitOf(k).value);
    }
    forall e | e in s.log ensures e in Next(s, k).s.log {
      var i :| 0 <= i < |s.log| && s.log[i] == e;
      assert Next(s, k).s.log[i] == e;
    }
  }

  lemma WriteKeepsTripsBacked(s: State, db: Db, e: Entry)
    requires TripsBacked(s) && Grows(s.db, db) && db.trips.Keys == s.db.trips.Keys
    ensures TripsBacked(Write(s, db, e))
  {
    var s' := Write(s, db, e);
    forall t | t in db.trips ensures Backed(s', t) {
      assert Backed(s, t);
    }
  }

  lemma WriteKeepsEntries(s: State, db: Db, e: Entry)
    requires EntriesMatch(s) && AcceptsCounted(s) && Grows(s.db, db) && db.tripByRide == s.db.tripByRide && !e.Accepted?
    ensures EntriesMatch(Write(s, db, e)) && AcceptsCounted(Write(s, db, e))
  {
    var s' := Write(s, db, e);
    forall r ensures Accepts(s'.log, r) == Accepts(s.log, r) {
      AcceptsAppended(s.log, e, r);
    }
    forall o, t | Accepted(o, t) in s'.log ensures Matches(s', o, t) {
      assert Accepted(o, t) in s.log && Matches(s, o, t);
    }
  }

  lemma WriteKeepsOffers(s: State, db: Db, e: Entry)
    requires AcceptedIsEntered(s) && FaresSubmitted(s)
    requires forall o :: IsAccepted(db, o) ==>
      || (IsAccepted(s.db, o) && TripOf(db, o.ride) == TripOf(s.db, o.ride))
      || (TripOf(db, o.ride).Some? && e == Accepted(o, TripOf(db, o.ride).value))
    requires forall o :: o in db.offers ==>
      || (o in s.db.offers && db.offers[o].fare == s.db.offers[o].fare)
      || (e.Submitted? && e.offer == o && e.fare == db.offers[o].fare)
    ensures AcceptedIsEntered(Write(s, db, e)) && FaresSubmitted(Write(s, db, e))
  {
    var s' := Write(s, db, e);
    forall o | o in db.offers ensures WasSubmitted(s'.log, o, db.offers[o].fare) {
      if o in s.db.offers && db.offers[o].fare == s.db.offers[o].fare {
        var at :| Submitted(o, db.offers[o].fare, at) in s.log;
        assert Submitted(o, db.offers[o].fare, at) in s'.log;
      } else {
        assert Submitted(o, e.fare, e.at) in s'.log;
      }
    }
  }

  /** Anything but an accept keeps the record, if the fares on file were submitted. */
  lemma WriteKeepsRecord(s: State, db: Db, e: Entry)
    requires Recorded(s) && Grows(s.db, db) && !e.Accepted?
    requires db.trips.Keys == s.db.trips.Keys && db.tripByRide == s.db.tripByRide
    requires forall o :: IsAccepted(db, o) ==> IsAccepted(s.db, o)
    requires forall o :: o in db.offers ==>
      || (o in s.db.offers && db.offers[o].fare == s.db.offers[o].fare)
      || (e.Submitted? && e.offer == o && e.fare == db.offers[o].fare)
    ensures Recorded(Write(s, db, e))
  {
    WriteKeepsTripsBacked(s, db, e);
    WriteKeepsEntries(s, db, e);
    WriteKeepsOffers(s, db, e);
  }

  lemma AcceptKeepsTrips(s: State, k: AcceptTicket, trip: TripId)
    requires TripsBacked(s) && AcceptTicketHolds(s.db, k) && WasSubmitted(s.log, k.offer, k.fare)
    requires Grows(s.db, CommitAccept(s.db, k, trip)) && !AcceptClashes(s.db, k, trip)
    ensures TripsBacked(Write(s, CommitAccept(s.db, k, trip), Accepted(k.offer, trip)))
  {
    var s' := Write(s, CommitAccept(s.db, k, trip), Accepted(k.offer, trip));
    forall t | t in s'.db.trips ensures Backed(s', t) {
      if t == trip {
        var at :| Submitted(k.offer, k.fare, at) in s.log;
        assert Submitted(k.offer, k.fare, at) in s'.log;
      } else {
        assert Backed(s, t);
      }
    }
  }

  lemma AcceptKeepsEntries(s: State, k: AcceptTicket, trip: TripId)
    requires EntriesMatch(s) && AcceptsCounted(s) && AcceptTicketHolds(s.db, k)
    requires Grows(s.db, CommitAccept(s.db, k, trip)) && !AcceptClashes(s.db, k, trip)
    ensures EntriesMatch(Write(s, CommitAccept(s.db, k, trip), Accepted(k.offer, trip)))
    ensures AcceptsCounted(Write(s, CommitAccept(s.db, k, trip), Accepted(k.offer, trip)))
  {
    var s' := Write(s, CommitAccept(s.db, k, trip), Accepted(k.offer, trip));
    forall r ensures Accepts(s'.log, r) == if TripOf(s'.db, r).Some? then 1 else 0 {
      AcceptsAppended(s.log, Accepted(k.offer, trip), r);
    }
    forall o, t | Accepted(o, t) in s'.log ensures Matches(s', o, t) {
      assert Accepted(o, t) != Accepted(k.offer, trip) ==> Accepted(o, t) in s.log && Matches(s, o, t);
    }
  }

  lemma AcceptKeepsOffers(s: State, k: AcceptTicket, trip: TripId)
    requires AcceptedIsEntered(s) && FaresSubmitted(s) && k.offer.ride in s.db.rides
    requires !AcceptClashes(s.db, k, trip)
    ensures var s' := Write(s, CommitAccept(s.db, k, trip), Accepted(k.offer, trip));
      AcceptedIsEntered(s') && FaresSubmitted(s')
  {
    WriteKeepsOffers(s, CommitAccept(s.db, k, trip), Accepted(k.offer, trip));
  }

  lemma AcceptKeepsRecord(s: State, k: AcceptTicket, trip: TripId)
    requires Schema(s.db) && Recorded(s) && AcceptTicketHolds(s.db, k) && WasSubmitted(s.log, k.offer, k.fare)
    requires !AcceptClashes(s.db, k, trip)
    ensures Recorded(Write(s, CommitAccept(s.db, k, trip), Accepted(k.offer, trip)))
  {
    AcceptGrows(s.db, k, trip);
    AcceptKeepsTrips(s, k, trip);
    AcceptKeepsEntries(s, k, trip);
    AcceptKeepsOffers(s, k, trip);
  }

  /** Commits other than an accept add no trip, accept no offer, and write only the fare they submit. */
  lemma CommitKeepsOffers(d: Db, c: Commit)
    requires Holds(d, c) && !c.Accept?
    ensures Perform(d, c).trips.Keys == d.trips.Keys && Perform(d, c).tripByRide == d.tripByRide
    ensures forall o :: IsAccepted(Perform(d, c), o) ==> IsAccepted(d, o)
    ensures forall o :: o in Perform(d, c).offers ==>
      || (o in d.offers && Perform(d, c).offers[o].fare == d.offers[o].fare)
      || (c.Upsert? && o == c.offer && Perform(d, c).offers[o].fare == c.fare)
  {
  }

  lemma NextKeepsRecord(s: State, k: Cont)
    requires Schema(s.db) && Recorded(s) && Remembers(s, k)
    ensures Recorded(Next(s, k).s)
  {
    if CommitOf(k).Some? {
      CommitKeepsRecord(s, k);
    } else if k.AddNewJob? || k.RemoveJobs? {
      var e := Next(s, k).s.log[|s.log|];
      WriteKeepsRecord(s, s.db, e);
      SameTablesSameRecord(Next(s, k).s, Emit(s, e));
    } else {
      SameTablesSameRecord(Next(s, k).s, s);
    }
  }

  lemma CommitKeepsRecord(s: State, k: Cont)
    requires Schema(s.db) && Recorded(s) && Remembers(s, k) && CommitOf(k).Some?
    ensures Recorded(Next(s, k).s)
  {
    if k.WriteAccept? {
      if !AcceptClashes(s.db, k.accept, k.trip) { AcceptKeepsRecord(s, k.accept, k.trip); }
    } else if k.WriteDriverExpiry? {
      ExpireAllKeepsRecord(s, k.profile);
    } else {
      OneEntryPerCommit(s, k);
      PlainCommitKeepsRecord(s, CommitOf(k).value, Next(s, k).s.log[|s.log|]);
    }
  }

  lemma PlainCommitKeepsRecord(s: State, c: Commit, e: Entry)
    requires Schema(s.db) && Recorded(s) && Holds(s.db, c) && !c.Accept? && !e.Accepted?
    requires c.Upsert? ==> e == Submitted(c.offer, c.fare, s.now)
    ensures Recorded(Write(s, Perform(s.db, c), e))
  {
    PerformKeepsSchema(s.db, c);
    CommitKeepsOffers(s.db, c);
    WriteKeepsRecord(s, Perform(s.db, c), e);
  }

  lemma OneEntryPerCommit(s: State, k: Cont)
    requires Schema(s.db) && Remembers(s, k) && CommitOf(k).Some?
    requires !k.WriteAccept? && !k.WriteDriverExpiry?
    ensures |Next(s, k).s.log| == |s.log| + 1 && !Next(s, k).s.log[|s.log|].Accepted?
    ensures Next(s, k).s == Write(s, Perform(s.db, CommitOf(k).value), Next(s, k).s.log[|s.log|])
    ensures k.WriteOffer? ==> Next(s, k).s.log[|s.log|] == Submitted(k.offer, k.fare, s.now)
  {
  }

  lemma SameTablesSameRecord(s': State, m: State)
    requires Recorded(m) && s'.db == m.db && s'.log == m.log
    ensures Recorded(s')
  {
    forall t | t in s'.db.trips ensures Backed(s', t) { assert Backed(m, t); }
    forall o, t | Accepted(o, t) in s'.log ensures Matches(s', o, t) { assert Matches(m, o, t); }
  }

  lemma ExpireAllKeepsRecord(s: State, driver: ProfileId)
    requires Recorded(s)
    ensures Recorded(s.(db := CommitExpireDriver(s.db, driver)))
  {
    var s' := s.(db := CommitExpireDriver(s.db, driver));
    forall t | t in s'.db.trips ensures Backed(s', t) { assert Backed(s, t); }
    forall o, t | Accepted(o, t) in s'.log ensures Matches(s', o, t) { assert Matches(s, o, t); }
  }

  lemma GrowthKeepsRecord(s: State, s': State)
    requires Recorded(s) && Grows(s.db, s'.db) && s'.log == s.log
    requires s'.db.offers == s.db.offers && s'.db.trips == s.db.trips && s'.db.tripByRide == s.db.tripByRide
    ensures Recorded(s')
  {
    forall t | t in s'.db.trips ensures Backed(s', t) { assert Backed(s, t); }
    forall o, t | Accepted(o, t) in s'.log ensures Matches(s', o, t) { assert Matches(s, o, t); }
  }

  /** Steps of other services, the clock, and a new ride. */
  lemma OutsideKeepsRecord(s: State, step: Step)
    requires Schema(s.db) && Recorded(s) && !IsCall(step)
    ensures var s' := Apply(s, step); Schema(s'.db) && Recorded(s') && StateGrows(s, s')
  {
    OutsideGrows(s, step);
    GrowthKeepsRecord(s, Apply(s, step));
  }

  lemma OutsideGrows(s: State, step: Step)
    requires Schema(s.db) && !IsCall(step)
    ensures var s' := Apply(s, step);
      && Schema(s'.db) && Grows(s.db, s'.db) && s'.log == s.log
      && s'.db.offers == s.db.offers && s'.db.trips == s.db.trips && s'.db.tripByRide == s.db.tripByRide
  {
    if step.Elsewhere? {
      OtherStepKeepsSchema(s.db, step.other);
      OtherStepGrows(s.db, step.other);
    } else if step.DoCreateRide? {
      NewRideGrows(s, step.id, step.rider, step.suggestedFare);
      assert Apply(s, step) in {s, CreateRide(s, step.id, step.rider, step.suggestedFare).state};
    } else {
      assert Apply(s, step).db == s.db;
    }
  }

  lemma NewRideGrows(s: State, id: RideId, rider: UserId, fare: real)
    requires Schema(s.db)
    ensures var s' := CreateRide(s, id, rider, fare).state; Schema(s'.db) && Grows(s.db, s'.db)
  {
  }

  // ------------------------------------------------------------ The system

  /** A job id is in one place: waiting, held or done. */
  predicate InOnePlace(s: State) {
    && (forall j :: j in s.jobs ==> j !in s.held && j !in s.finished)
    && (forall j :: j in s.held ==> j !in s.finished)
  }

  ghost predicate Valid(y: Sys) {
    && Schema(y.s.db) && Recorded(y.s) && InOnePlace(y.s)
    && forall id :: id in y.calls ==> Remembers(y.s, y.calls[id])
  }

  function Update(y: Sys, id: nat, s: State, next: Option<Cont>): Sys {
    Sys(s, if next.Some? then y.calls[id := next.value] else y.calls - {id})
  }

  function Return(s: State, job: Job, due: Millis): State {
    if job in s.held then s.(jobs := s.jobs[job := due], held := s.held - {job}) else s
  }

  ghost function Happen(y: Sys, e: Event): Sys
    requires Valid(y)
  {
    match e
    case Begin(id, call) =>
      if !IsCall(call) then y.(s := Apply(y.s, call))
      else if id in y.calls || !CanStart(y.s, call) then y
      else Update(y, id, Started(y.s, id, call), First(y.s, id, call))
    case Resume(id) =>
      if id !in y.calls then y
      else Update(y, id, Next(y.s, y.calls[id]).s, Next(y.s, y.calls[id]).next)
    case Crash(id) => y.(calls := y.calls - {id})
    case Requeue(job, due) => y.(s := Return(y.s, job, due))
    case GiveUp(job) => y.(s := if job in y.s.held then Settle(y.s, job) else y.s)
  }

  lemma UpdateIsValid(y: Sys, id: nat, s: State, next: Option<Cont>)
    requires Valid(y) && Schema(s.db) && Recorded(s) && InOnePlace(s) && StateGrows(y.s, s)
    requires next.Some? ==> Remembers(s, next.value)
    ensures Valid(Update(y, id, s, next))
  {
    forall i | i in y.calls ensures Remembers(s, y.calls[i]) {
      GrowthKeepsMemory(y.s, s, y.calls[i]);
    }
  }

  /** A step of the queue leaves all but the queue as it is. */
  lemma QueueStepIsValid(y: Sys, s: State)
    requires Valid(y) && s == y.s.(jobs := s.jobs, held := s.held, finished := s.finished) && InOnePlace(s)
    ensures Valid(y.(s := s)) && StateGrows(y.s, s)
  {
    SameTablesSameRecord(s, y.s);
    forall i | i in y.calls ensures Remembers(s, y.calls[i]) {
      GrowthKeepsMemory(y.s, s, y.calls[i]);
    }
  }

  lemma NextKeepsPlaces(s: State, k: Cont)
    requires Schema(s.db) && Remembers(s, k) && InOnePlace(s)
    ensures InOnePlace(Next(s, k).s)
  {
  }

  lemma OutsideKeepsPlaces(s: State, step: Step)
    requires Schema(s.db) && !IsCall(step) && InOnePlace(s)
    ensures InOnePlace(Apply(s, step))
  {
  }

  lemma HappenKeepsValid(y: Sys, e: Event)
    requires Valid(y)
    ensures Valid(Happen(y, e)) && StateGrows(y.s, Happen(y, e).s)
  {
    match e
    case Begin(id, call) =>
      if !IsCall(call) {
        OutsideKeepsRecord(y.s, call);
        OutsideKeepsPlaces(y.s, call);
        forall i | i in y.calls ensures Remembers(Apply(y.s, call), y.calls[i]) {
          GrowthKeepsMemory(y.s, Apply(y.s, call), y.calls[i]);
        }
      } else if id !in y.calls && CanStart(y.s, call) {
        FirstRemembers(y.s, id, call);
        SameTablesSameRecord(Started(y.s, id, call), y.s);
        UpdateIsValid(y, id, Started(y.s, id, call), First(y.s, id, call));
      }
    case Resume(id) =>
      if id in y.calls {
        NextRemembers(y.s, y.calls[id]);
        NextGrows(y.s, y.calls[id]);
        NextKeepsRecord(y.s, y.calls[id]);
        NextKeepsPlaces(y.s, y.calls[id]);
        UpdateIsValid(y, id, Next(y.s, y.calls[id]).s, Next(y.s, y.calls[id]).next);
      }
    case Crash(_) =>
    case Requeue(job, due) => QueueStepIsValid(y, Happen(y, e).s);
    case GiveUp(job) => QueueStepIsValid(y, Happen(y, e).s);
  }

  ghost function RunAll(y: Sys, events: seq<Event>): (r: Sys)
    requires Valid(y)
    ensures Valid(r)
    decreases |events|
  {
    if events == [] then y else
    HappenKeepsValid(y, events[0]);
    RunAll(Happen(y, events[0]), events[1..])
  }

  ghost function FromEmpty(expirySeconds: nat, events: seq<Event>): (r: Sys)
    ensures Valid(r)
  {
    RunAll(Sys(Initial(expirySeconds), map[]), events)
  }

  /**
   * Level B. However calls interleave and die, a ride has at most one committed
   * accept, one trip and one offer ever accepted; an accepted offer has a trip
   * carrying its driver and its ride's rider; and the agreed fare of a trip is
   * one its driver submitted for its ride.
   */
  lemma {:induction false} AcceptIsUnique(expirySeconds: nat, events: seq<Event>)
    ensures var s := FromEmpty(expirySeconds, events).s;
      && (forall r :: Accepts(s.log, r) <= 1)
      && (forall t, u :: t in s.db.trips && u in s.db.trips && s.db.trips[t].rideId == s.db.trips[u].rideId ==> t == u)
      && (forall o, t, p, u :: Accepted(o, t) in s.log && Accepted(p, u) in s.log && o.ride == p.ride ==>
            o == p && t == u)
  {
    var s := FromEmpty(expirySeconds, events).s;
    forall o, t, p, u | Accepted(o, t) in s.log && Accepted(p, u) in s.log && o.ride == p.ride
      ensures o == p && t == u
    {
      assert Matches(s, o, t) && Matches(s, p, u);
    }
  }

  lemma AcceptedOfferHasItsTrip(expirySeconds: nat, events: seq<Event>, o: OfferId)
    requires IsAccepted(FromEmpty(expirySeconds, events).s.db, o)
    ensures var d := FromEmpty(expirySeconds, events).s.db;
      o.ride in d.rides && o.driver in d.profiles
      && exists t :: t in d.trips && d.trips[t].rideId == o.ride
           && d.trips[t].driverId == d.profiles[o.driver].userId && d.trips[t].riderId == d.rides[o.ride].riderId
  {
    var s := FromEmpty(expirySeconds, events).s;
    var t := s.db.tripByRide[o.ride];
    assert Matches(s, o, t) && Backed(s, t);
  }

  lemma AgreedFareWasSubmitted(expirySeconds: nat, events: seq<Event>, t: TripId)
    requires t in FromEmpty(expirySeconds, events).s.db.trips
    ensures var s := FromEmpty(expirySeconds, events).s;
      exists p: ProfileId :: p in s.db.profiles && s.db.profiles[p].userId == s.db.trips[t].driverId
        && WasSubmitted(s.log, OfferId(s.db.trips[t].rideId, p), s.db.trips[t].agreedFare)
  {
    var s := FromEmpty(expirySeconds, events).s;
    assert Backed(s, t);
    assert s.db.profileByUser[s.db.trips[t].driverId] in s.db.profiles;
  }

  // ------------------------------------------- The coupling at this grain

  /** Level B. A call's next step is sound exactly when its commit, if it makes one, fits the ride. */
  lemma ResumeIsSoundIffIntact(y: Sys, id: nat)
    requires Valid(y) && Coupled(y.s.db) && id in y.calls
    ensures Sound(y.s.db, Happen(y, Resume(id)).s.db)
       <==> (CommitOf(y.calls[id]).Some? ==> Intact(y.s.db, CommitOf(y.calls[id]).value))
  {
    NextPerforms(y.s, y.calls[id]);
    if CommitOf(y.calls[id]).Some? {
      SoundIffIntact(y.s.db, CommitOf(y.calls[id]).value);
    } else {
      GrowthIsSound(y.s.db, y.s.db);
    }
  }

  /** Every commit of the run fits its ride when it is made. */
  ghost predicate AllIntact(y: Sys, events: seq<Event>)
    requires Valid(y)
    decreases |events|
  {
    if events == [] then true else
    HappenKeepsValid(y, events[0]);
    && (events[0].Resume? && events[0].id in y.calls && CommitOf(y.calls[events[0].id]).Some? ==>
          Intact(y.s.db, CommitOf(y.calls[events[0].id]).value))
    && AllIntact(Happen(y, events[0]), events[1..])
  }

  /** Level B. Interleavings whose commits are intact keep the whole coupling of Level A. */
  lemma {:induction false} IntactRunIsCoupled(y: Sys, events: seq<Event>)
    requires Valid(y) && Coupled(y.s.db) && AllIntact(y, events)
    ensures Coupled(RunAll(y, events).s.db)
    decreases |events|
  {
    if events != [] {
      HappenKeepsValid(y, events[0]);
      EventIsSoundIffIntact(y, events[0]);
      IntactRunIsCoupled(Happen(y, events[0]), events[1..]);
    }
  }

  /** Every event of the run leaves the tables coupled, by legal moves. */
  ghost predicate AllSound(y: Sys, events: seq<Event>)
    requires Valid(y)
    decreases |events|
  {
    if events == [] then true else
    HappenKeepsValid(y, events[0]);
    Sound(y.s.db, Happen(y, events[0]).s.db) && AllSound(Happen(y, events[0]), events[1..])
  }

  /** Level B. A run is sound throughout exactly when every commit of it fits its ride. */
  lemma {:induction false} RunIsSoundIffIntact(y: Sys, events: seq<Event>)
    requires Valid(y) && Coupled(y.s.db)
    ensures AllSound(y, events) <==> AllIntact(y, events)
    decreases |events|
  {
    if events != [] {
      HappenKeepsValid(y, events[0]);
      EventIsSoundIffIntact(y, events[0]);
      if Sound(y.s.db, Happen(y, events[0]).s.db) { RunIsSoundIffIntact(Happen(y, events[0]), events[1..]); }
    }
  }

  lemma EventIsSoundIffIntact(y: Sys, e: Event)
    requires Valid(y) && Coupled(y.s.db)
    ensures Sound(y.s.db, Happen(y, e).s.db) <==>
      (e.Resume? && e.id in y.calls && CommitOf(y.calls[e.id]).Some? ==> Intact(y.s.db, CommitOf(y.calls[e.id]).value))
  {
    GrowthIsSound(y.s.db, y.s.db);
    match e
    case Begin(_, call) => if !IsCall(call) { StepIsSound(y.s, call); }
    case Resume(id) => if id in y.calls { ResumeIsSoundIffIntact(y, id); }
    case Crash(_) =>
    case Requeue(_, _) =>
    case GiveUp(_) =>
  }

  lemma {:induction false} RunAllAppend(y: Sys, events: seq<Event>, e: Event)
    requires Valid(y)
    ensures RunAll(y, events + [e]) == Happen(RunAll(y, events), e)
    decreases |events|
  {
    HappenKeepsValid(y, (events + [e])[0]);
    if events == [] {
      assert RunAll(Happen(y, e), []) == Happen(y, e);
    } else {
      assert (events + [e])[1..] == events[1..] + [e];
      RunAllAppend(Happen(y, events[0]), events[1..], e);
    }
  }

  /** Some run reaches the system from empty. */
  ghost predicate Reached(y: Sys) {
    exists events :: FromEmpty(60, events) == y
  }

  lemma ReachedStep(y: Sys, e: Event)
    requires Reached(y) && Valid(y)
    ensures Reached(Happen(y, e)) && Valid(Happen(y, e))
  {
    var events :| FromEmpty(60, events) == y;
    RunAllAppend(Sys(Initial(60), map[]), events, e);
    HappenKeepsValid(y, e);
    assert FromEmpty(60, events + [e]) == Happen(y, e);
  }

  // The witness: rider 1, driver 2 with profile 7, ride 10 and trip 20.

  const OFFER := OfferId(10, 7)

  lemma OneUser() returns (y: Sys)
    ensures Reached(y) && Valid(y) && y.calls == map[] && y.s.jobs == map[]
    ensures y.s.db == Db(map[1 := RiderMode], map[], map[], map[], map[], map[], map[])
  {
    var start := FromEmpty(60, []);
    assert Reached(start);
    ReachedStep(start, Begin(0, Elsewhere(Register(1))));
    y := Happen(start, Begin(0, Elsewhere(Register(1))));
  }

  lemma TwoUsers() returns (y: Sys)
    ensures Reached(y) && Valid(y) && y.calls == map[] && y.s.jobs == map[]
    ensures y.s.db == Db(map[1 := RiderMode, 2 := RiderMode], map[], map[], map[], map[], map[], map[])
  {
    var y1 := OneUser();
    ReachedStep(y1, Begin(0, Elsewhere(Register(2))));
    y := Happen(y1, Begin(0, Elsewhere(Register(2))));
  }

  lemma ADriver() returns (y: Sys)
    ensures Reached(y) && Valid(y) && y.calls == map[] && y.s.jobs == map[]
    ensures y.s.db == Db(map[1 := RiderMode, 2 := RiderMode], map[7 := Profile(2, false)], map[2 := 7],
                         map[], map[], map[], map[])
  {
    var y1 := TwoUsers();
    ReachedStep(y1, Begin(0, Elsewhere(Verify(7, 2))));
    y := Happen(y1, Begin(0, Elsewhere(Verify(7, 2))));
  }

  lemma AnEmptyRide() returns (y: Sys)
    ensures Reached(y) && Valid(y) && y.calls == map[] && y.s.jobs == map[]
    ensures y.s.db == Db(map[1 := RiderMode, 2 := RiderMode], map[7 := Profile(2, false)], map[2 := 7],
                         map[10 := Ride(1, 5.0, RidePending, None)], map[], map[], map[])
  {
    var y1 := ADriver();
    ReachedStep(y1, Begin(0, DoCreateRide(10, 1, 5.0)));
    y := Happen(y1, Begin(0, DoCreateRide(10, 1, 5.0)));
  }

  lemma ASubmission() returns (y: Sys)
    ensures Reached(y) && Valid(y) && y.calls == map[1 := WriteOffer(OFFER, 6.0, 1)] && y.s.jobs == map[]
    ensures y.s.db == Db(map[1 := RiderMode, 2 := RiderMode], map[7 := Profile(2, false)], map[2 := 7],
                         map[10 := Ride(1, 5.0, RidePending, None)], map[], map[], map[])
  {
    var y1 := AnEmptyRide();
    ReachedStep(y1, Begin(1, DoSubmit(2, 10, 6.0)));
    var y2 := Happen(y1, Begin(1, DoSubmit(2, 10, 6.0)));
    assert y2.calls == map[1 := FindRide(7, 10, 6.0)];
    ReachedStep(y2, Resume(1));
    y := Happen(y2, Resume(1));
  }

  /** The submission dies right after its upsert. */
  lemma AnOfferedRide() returns (y: Sys)
    ensures Reached(y) && Valid(y) && y.calls == map[] && y.s.jobs == map[]
    ensures y.s.db == Db(map[1 := RiderMode, 2 := RiderMode], map[7 := Profile(2, false)], map[2 := 7],
                         map[10 := Ride(1, 5.0, RidePending, None)], map[OFFER := Offer(6.0, OfferPending)],
                         map[], map[])
  {
    var y1 := ASubmission();
    ReachedStep(y1, Resume(1));
    var y2 := Happen(y1, Resume(1));
    ReachedStep(y2, Crash(1));
    y := Happen(y2, Crash(1));
  }

  lemma ACancellation() returns (y: Sys)
    ensures Reached(y) && Valid(y) && y.calls.Keys == {1}
    ensures y.calls[1].WriteCancel? && y.calls[1].cancel.ride == 10 && y.calls[1].cancel.trip == None
    ensures y.s.db == Db(map[1 := RiderMode, 2 := RiderMode], map[7 := Profile(2, false)], map[2 := 7],
                         map[10 := Ride(1, 5.0, RidePending, None)], map[OFFER := Offer(6.0, OfferPending)],
                         map[], map[])
  {
    var y1 := AnOfferedRide();
    ReachedStep(y1, Begin(1, DoCancel(10, 1, None)));
    y := Happen(y1, Begin(1, DoCancel(10, 1, None)));
  }

  /** A cancellation and an accept have both read the ride. */
  lemma TwoReaders() returns (y: Sys)
    ensures Reached(y) && Valid(y) && y.calls.Keys == {1, 2} && y.s.db.trips == map[] && y.s.db.tripByRide == map[]
    ensures y.calls[1].WriteCancel? && y.calls[1].cancel.ride == 10 && y.calls[1].cancel.trip == None
    ensures y.calls[2] == ReadOthers(AcceptTicket(OFFER, 6.0, 2, 1), 20)
  {
    var y1 := ACancellation();
    ReachedStep(y1, Begin(2, DoAccept(1, OFFER, 20)));
    y := Happen(y1, Begin(2, DoAccept(1, OFFER, 20)));
  }

  lemma AnAcceptAboutToCommit() returns (y: Sys)
    ensures Reached(y) && Valid(y) && y.calls.Keys == {1, 2} && y.s.db.trips == map[] && y.s.db.tripByRide == map[]
    ensures y.calls[1].WriteCancel? && y.calls[1].cancel.ride == 10 && y.calls[1].cancel.trip == None
    ensures y.calls[2].WriteAccept? && y.calls[2].accept == AcceptTicket(OFFER, 6.0, 2, 1) && y.calls[2].trip == 20
  {
    var y1 := TwoReaders();
    ReachedStep(y1, Resume(2));
    y := Happen(y1, Resume(2));
  }

  /** The accept has committed, the cancellation not yet. */
  lemma AStaleCancellation() returns (y: Sys)
    ensures Reached(y) && Valid(y) && 1 in y.calls && y.calls[1].WriteCancel?
    ensures y.calls[1].cancel.ride == 10 && y.calls[1].cancel.trip == None
    ensures 20 in y.s.db.trips && y.s.db.trips[20].rideId == 10 && y.s.db.trips[20].status == TripMatched
  {
    var y1 := AnAcceptAboutToCommit();
    ReachedStep(y1, Resume(2));
    y := Happen(y1, Resume(2));
  }

  /**
   * Level B does not keep the coupling: a cancellation that read the ride before
   * an accept and commits after it leaves a CANCELLED ride with a MATCHED trip.
   */
  lemma CouplingCanBreak()
    ensures exists y: Sys ::
      && Reached(y) && !Coupled(y.s.db)
      && 10 in y.s.db.rides && y.s.db.rides[10].status == RideCancelled
      && 20 in y.s.db.trips && y.s.db.trips[20].rideId == 10 && y.s.db.trips[20].status == TripMatched
  {
    var y := AStaleCancellation();
    ReachedStep(y, Resume(1));
    y := Happen(y, Resume(1));
    assert y.s.db.trips[20].status == TripMatched && y.s.db.tripByRide[10] == 20;
    assert !RideCoupled(y.s.db, 10);
  }

  /**
   * Level B does not keep the expiry bound: a submission that dies between its
   * upsert and its scheduling leaves a PENDING offer that no job will expire.
   */
  lemma PendingOfferCanLackItsJob()
    ensures exists y: Sys :: Reached(y) && IsPending(y.s.db, OFFER) && y.calls == map[] && y.s.jobs == map[]
  {
    var y := AnOfferedRide();
  }
}
