/**
 * Runs of Level B in which no call dies, no job fails and no worker loses its
 * lock, and what they can still lose.
 */
module RideCalm {
  import opened Common
  import opened RideModel
  import opened RideInvariant
  import opened RideInterleaving
  import opened RideJobs
  import opened RideAnnouncements

  predicate IsCalm(e: Event) {
    e.Begin? || e.Resume?
  }

  predicate AllCalm(events: seq<Event>) {
    forall e :: e in events ==> IsCalm(e)
  }

  /** Some such run reaches the system from empty. */
  ghost predicate Calm(y: Sys) {
    exists events :: AllCalm(events) && FromEmpty(60, events) == y
  }

  lemma CalmStep(y: Sys, e: Event)
    requires Calm(y) && Valid(y) && IsCalm(e)
    ensures Valid(Happen(y, e)) && Calm(Happen(y, e))
  {
    var events :| AllCalm(events) && FromEmpty(60, events) == y;
    RunAllAppend(Sys(Initial(60), map[]), events, e);
    HappenKeepsValid(y, e);
    assert AllCalm(events + [e]) && FromEmpty(60, events + [e]) == Happen(y, e);
  }

  lemma CalmBegin(y: Sys, id: nat, call: Step, k: Cont) returns (z: Sys)
    requires Calm(y) && Valid(y) && id !in y.calls && IsCall(call) && CanStart(y.s, call)
    requires First(y.s, id, call) == Some(k)
    ensures Calm(z) && Valid(z) && z == Sys(Started(y.s, id, call), y.calls[id := k])
  {
    CalmStep(y, Begin(id, call));
    z := Happen(y, Begin(id, call));
  }

  lemma CalmResume(y: Sys, id: nat, k: Cont) returns (z: Sys)
    requires Calm(y) && Valid(y) && id in y.calls && y.calls[id] == k
    ensures Remembers(y.s, k)
    ensures Calm(z) && Valid(z) && z == Update(y, id, Next(y.s, k).s, Next(y.s, k).next)
  {
    CalmStep(y, Resume(id));
    z := Happen(y, Resume(id));
  }

  lemma CalmAdvance(y: Sys, id: nat, next: Cont) returns (z: Sys)
    requires Calm(y) && Valid(y) && id in y.calls && Next(y.s, y.calls[id]).next == Some(next)
    ensures Calm(z) && Valid(z) && z.calls == y.calls[id := next]
  {
    z := CalmResume(y, id, y.calls[id]);
  }

  lemma {:induction false} FinishGoesOn(s: State, k: Cont, next: Cont)
    requires Schema(s.db) && Remembers(s, k) && Next(s, k).next == Some(next)
    ensures Schema(Next(s, k).s.db) && Remembers(Next(s, k).s, next)
    ensures StepsLeft(next) < StepsLeft(k) && Finish(s, k) == Finish(Next(s, k).s, next)
  {
    NextRemembers(s, k);
  }

  lemma UpdateLeavesRest(y: Sys, id: nat, s: State, next: Cont)
    ensures var z := Update(y, id, s, Some(next));
      z.s == s && id in z.calls && z.calls[id] == next && z.calls - {id} == y.calls - {id}
  {
  }

  /** One step of a call that then goes on as `next`. */
  lemma CalmOn(y: Sys, id: nat, k: Cont, next: Cont) returns (z: Sys)
    requires Calm(y) && Valid(y) && id in y.calls && y.calls[id] == k && Remembers(y.s, k)
    requires Next(y.s, k).next == Some(next)
    ensures Calm(z) && Valid(z) && z.s == Next(y.s, k).s && id in z.calls && z.calls[id] == next
    ensures z.calls - {id} == y.calls - {id}
  {
    z := CalmResume(y, id, k);
    UpdateLeavesRest(y, id, Next(y.s, k).s, next);
  }

  lemma {:induction false} CalmLast(y: Sys, id: nat, k: Cont) returns (z: Sys)
    requires Calm(y) && Valid(y) && id in y.calls && y.calls[id] == k && Remembers(y.s, k)
    requires Next(y.s, k).next.None?
    ensures Calm(z) && Valid(z) && z == Sys(Finish(y.s, k), y.calls - {id})
  {
    z := CalmResume(y, id, k);
  }

  /** A call left alone from where it is to its end. */
  lemma {:induction false} CalmFinish(y: Sys, id: nat, k: Cont) returns (z: Sys)
    requires Calm(y) && Valid(y) && id in y.calls && y.calls[id] == k && Remembers(y.s, k)
    ensures Calm(z) && Valid(z) && z == Sys(Finish(y.s, k), y.calls - {id})
    decreases StepsLeft(k)
  {
    var next := Next(y.s, k).next;
    if next.None? {
      z := CalmLast(y, id, k);
    } else {
      var m := CalmOn(y, id, k, next.value);
      FinishGoesOn(y.s, k, next.value);
      z := CalmFinish(m, id, next.value);
    }
  }

  /** The same, for the call that was begun last. */
  lemma {:induction false} CalmEnd(y: Sys, id: nat, k: Cont, others: map<nat, Cont>) returns (z: Sys)
    requires Calm(y) && Valid(y) && id !in others && y.calls == others[id := k] && Remembers(y.s, k)
    ensures Calm(z) && Valid(z) && z == Sys(Finish(y.s, k), others)
  {
    z := CalmFinish(y, id, k);
    assert y.calls - {id} == others;
  }

  /** What a whole submission leaves. */
  function AfterSubmit(s: State, o: OfferId, fare: real, rider: UserId): State
    requires o.ride in s.db.rides && o.driver in s.db.profiles
  {
    var s1 := Write(s, CommitUpsert(s.db, o, fare), Submitted(o, fare, s.now));
    Emit(Schedule(Unschedule(s1, {o}), o), OfferSubmittedEvent(o, rider))
  }

  /** A submission left alone. */
  lemma {:induction false} CalmSubmit(y: Sys, id: nat, driver: UserId, o: OfferId, fare: real, rider: UserId)
      returns (z: Sys)
    requires Calm(y) && Valid(y) && id !in y.calls
    requires ProfileOf(y.s.db, driver) == Some(o.driver) && CheckRideOpen(y.s.db, o.ride) == Pass(rider)
    ensures Calm(z) && Valid(z) && z == Sys(AfterSubmit(y.s, o, fare, rider), y.calls)
  {
    SubmitAlone(y.s, o.driver, o.ride, fare);
    var k := FindRide(o.driver, o.ride, fare);
    var y1 := CalmBegin(y, id, DoSubmit(driver, o.ride, fare), k);
    z := CalmEnd(y1, id, k, y.calls);
  }

  /** A worker left alone with a waiting job. */
  lemma {:induction false} CalmJob(y: Sys, id: nat, job: Job) returns (z: Sys)
    requires Calm(y) && Valid(y) && id !in y.calls && job in y.s.jobs
    ensures Calm(z) && Valid(z) && z == Sys(Settle(Process(y.s, job), job), y.calls)
  {
    var taken := Take(y.s, job, id);
    JobAlone(taken, id, job);
    TakeThenSettle(y.s, id, job);
    var k := First(taken, id, DoJob(job)).value;
    var y1 := CalmBegin(y, id, DoJob(job), k);
    z := CalmEnd(y1, id, k, y.calls);
  }

  // ------------------------- The cast: rider 1, drivers 2 and 3 with profiles 7 and 8, ride 10

  const USERS := map[1 := RiderMode, 2 := RiderMode, 3 := RiderMode]
  const PROFILES := map[7 := Profile(2, false), 8 := Profile(3, false)]
  const BY_USER := map[2 := 7, 3 := 8]
  const FIRST := OfferId(10, 7)
  const SECOND := OfferId(10, 8)
  const TICKET := AcceptTicket(FIRST, 6.0, 2, 1)

  /** A system with nothing in flight and an empty queue. */
  predicate IsIdle(y: Sys) {
    y.calls == map[] && y.s.jobs == map[] && y.s.held == map[] && y.s.finished == {}
  }

  lemma CalmOutside(y: Sys, step: OtherStep) returns (z: Sys)
    requires Calm(y) && Valid(y) && !step.Disconnect?
    ensures Calm(z) && Valid(z) && z.s.db == OtherTables(y.s.db, step) && (IsIdle(y) ==> IsIdle(z))
  {
    CalmStep(y, Begin(0, Elsewhere(step)));
    z := Happen(y, Begin(0, Elsewhere(step)));
  }

  lemma NoOne() returns (y: Sys)
    ensures Calm(y) && Valid(y) && IsIdle(y) && y.s.db == Db(map[], map[], map[], map[], map[], map[], map[])
  {
    y := FromEmpty(60, []);
    assert AllCalm([]);
  }

  lemma TwoUsers() returns (y: Sys)
    ensures Calm(y) && Valid(y) && IsIdle(y)
    ensures y.s.db == Db(map[1 := RiderMode, 2 := RiderMode], map[], map[], map[], map[], map[], map[])
  {
    var y0 := NoOne();
    var y1 := CalmOutside(y0, Register(1));
    y := CalmOutside(y1, Register(2));
  }

  lemma OneDriver() returns (y: Sys)
    ensures Calm(y) && Valid(y) && IsIdle(y)
    ensures y.s.db == Db(USERS, map[7 := Profile(2, false)], map[2 := 7], map[], map[], map[], map[])
  {
    var y0 := TwoUsers();
    var y1 := CalmOutside(y0, Register(3));
    y := CalmOutside(y1, Verify(7, 2));
  }

  lemma TwoDrivers() returns (y: Sys)
    ensures Calm(y) && Valid(y) && IsIdle(y)
    ensures y.s.db == Db(USERS, PROFILES, BY_USER, map[], map[], map[], map[])
  {
    var y0 := OneDriver();
    y := CalmOutside(y0, Verify(8, 3));
  }

  /** The tables while ride 10 is open. */
  function Offered(offers: map<OfferId, Offer>): Db {
    Db(USERS, PROFILES, BY_USER, map[10 := Ride(1, 5.0, RidePending, None)], offers, map[], map[])
  }

  lemma ARide() returns (y: Sys)
    ensures Calm(y) && Valid(y) && IsIdle(y) && y.s.db == Offered(map[])
  {
    var y0 := TwoDrivers();
    CalmStep(y0, Begin(0, DoCreateRide(10, 1, 5.0)));
    y := Happen(y0, Begin(0, DoCreateRide(10, 1, 5.0)));
  }

  /** Scheduling an offer's job, when the queue has none for it. */
  lemma FreshJob(s: State, o: OfferId)
    requires s.jobs == map[] && s.held == map[] && s.finished == {}
    ensures Schedule(Unschedule(s, {o}), o) == s.(jobs := map[ExpireOffer(o) := Due(s)])
  {
  }

  lemma OneOffer() returns (y: Sys)
    ensures Calm(y) && Valid(y) && y.calls == map[] && y.s.db == Offered(map[FIRST := Offer(6.0, OfferPending)])
    ensures y.s.jobs.Keys == {ExpireOffer(FIRST)}
    ensures y.s.held == map[] && y.s.finished == {}
  {
    var y0 := ARide();
    y := CalmSubmit(y0, 2, 2, FIRST, 6.0, 1);
    FreshJob(Write(y0.s, CommitUpsert(y0.s.db, FIRST, 6.0), Submitted(FIRST, 6.0, y0.s.now)), FIRST);
  }

  lemma TwoOffers() returns (y: Sys)
    ensures Calm(y) && Valid(y) && y.calls == map[]
    ensures y.s.db == Offered(map[FIRST := Offer(6.0, OfferPending), SECOND := Offer(7.0, OfferPending)])
  {
    var y0 := OneOffer();
    y := CalmSubmit(y0, 2, 3, SECOND, 7.0, 1);
  }

  /** The state of an accept of the first offer once it has read that some others are PENDING too. */
  lemma AnAcceptReads(y: Sys, others: set<OfferId>) returns (z: Sys)
    requires Calm(y) && Valid(y) && y.calls == map[] && y.s.db == Offered(y.s.db.offers)
    requires FIRST in y.s.db.offers && y.s.db.offers[FIRST] == Offer(6.0, OfferPending)
    requires others == OtherPending(y.s.db, FIRST)
    ensures Calm(z) && Valid(z) && z == Sys(y.s, map[1 := WriteAccept(TICKET, 20, others)])
  {
    var y1 := CalmBegin(y, 1, DoAccept(1, FIRST, 20), ReadOthers(TICKET, 20));
    z := CalmResume(y1, 1, ReadOthers(TICKET, 20));
  }

  // ------------------------------------------- An accept removes a new job

  const REMOVING := RemoveJobs(TICKET, 20, {SECOND})

  lemma AnAcceptHasRead() returns (y: Sys)
    ensures Calm(y) && Valid(y) && y.calls == map[1 := WriteAccept(TICKET, 20, {SECOND})]
    ensures y.s.db == Offered(map[FIRST := Offer(6.0, OfferPending), SECOND := Offer(7.0, OfferPending)])
  {
    var y0 := TwoOffers();
    assert OtherPending(y0.s.db, FIRST) == {SECOND};
    y := AnAcceptReads(y0, {SECOND});
  }

  lemma AResubmissionBegins() returns (y: Sys)
    ensures Calm(y) && Valid(y)
    ensures y.calls == map[1 := WriteAccept(TICKET, 20, {SECOND}), 2 := FindRide(8, 10, 8.0)]
    ensures y.s.db == Offered(map[FIRST := Offer(6.0, OfferPending), SECOND := Offer(7.0, OfferPending)])
  {
    var y0 := AnAcceptHasRead();
    y := CalmBegin(y0, 2, DoSubmit(3, 10, 8.0), FindRide(8, 10, 8.0));
  }

  /** A resubmission of the second has read that the ride is open. */
  lemma AResubmissionHasRead() returns (y: Sys)
    ensures Calm(y) && Valid(y)
    ensures y.calls == map[1 := WriteAccept(TICKET, 20, {SECOND}), 2 := WriteOffer(SECOND, 8.0, 1)]
    ensures y.s.db.trips == map[] && y.s.db.tripByRide == map[]
  {
    var y0 := AResubmissionBegins();
    y := CalmResume(y0, 2, FindRide(8, 10, 8.0));
  }

  lemma AnAcceptCommits(y: Sys, others: set<OfferId>) returns (z: Sys)
    requires Calm(y) && Valid(y) && 1 in y.calls && y.calls[1] == WriteAccept(TICKET, 20, others)
    requires y.s.db.trips == map[] && y.s.db.tripByRide == map[]
    ensures Calm(z) && Valid(z) && z.calls == y.calls[1 := RemoveJobs(TICKET, 20, others)]
  {
    assert Remembers(y.s, y.calls[1]);
    assert !AcceptClashes(y.s.db, TICKET, 20);
    z := CalmAdvance(y, 1, RemoveJobs(TICKET, 20, others));
  }

  lemma TheAcceptCommits() returns (y: Sys)
    ensures Calm(y) && Valid(y) && y.calls == map[1 := REMOVING, 2 := WriteOffer(SECOND, 8.0, 1)]
  {
    var y0 := AResubmissionHasRead();
    y := AnAcceptCommits(y0, {SECOND});
  }

  lemma ThenTheUpsert() returns (y: Sys)
    ensures Calm(y) && Valid(y) && y.calls == map[1 := REMOVING, 2 := RemoveOldJob(SECOND, 1)]
    ensures IsPending(y.s.db, SECOND)
  {
    var y0 := TheAcceptCommits();
    y := CalmResume(y0, 2, WriteOffer(SECOND, 8.0, 1));
  }

  /** The accept commits, the resubmission upserts and schedules. */
  lemma AResubmissionIsScheduled() returns (y: Sys)
    ensures Calm(y) && Valid(y) && y.calls == map[1 := REMOVING] && IsPending(y.s.db, SECOND)
  {
    var y0 := ThenTheUpsert();
    y := CalmFinish(y0, 2, RemoveOldJob(SECOND, 1));
    SchedulingAlone(y0.s, SECOND, 1);
  }

  lemma {:induction false} SchedulingAlone(s: State, o: OfferId, rider: UserId)
    requires Schema(s.db)
    ensures Finish(s, RemoveOldJob(o, rider)).db == s.db
  {
    NextRemembers(s, RemoveOldJob(o, rider));
    var p := Next(s, RemoveOldJob(o, rider));
    assert Finish(s, RemoveOldJob(o, rider)) == Finish(p.s, AddNewJob(o, rider));
  }

  /**
   * Level B, and nothing dies: an accept removes the jobs of the offers it read
   * as PENDING, and with them the new job of one resubmitted meanwhile.
   */
  lemma AcceptCanRemoveANewJob()
    ensures exists y :: Calm(y) && y.calls == map[] && IsPending(y.s.db, SECOND) && ExpireOffer(SECOND) !in y.s.jobs
  {
    var y0 := AResubmissionIsScheduled();
    var y := CalmResume(y0, 1, REMOVING);
    NextJobs(y0.s, REMOVING);
    assert y.calls == map[];
  }

  // ------------------------------------------- A held job blocks a new one

  const DRIVER_JOB := ExpireDriverOffers(7)
  const JOB := ExpireOffer(FIRST)

  /** The first driver disconnects while the offer's own job waits. */
  lemma ADisconnect() returns (y: Sys)
    ensures Calm(y) && Valid(y) && y.calls == map[] && y.s.db == Offered(map[FIRST := Offer(6.0, OfferPending)])
    ensures JOB in y.s.jobs && DRIVER_JOB in y.s.jobs
  {
    var y0 := OneOffer();
    CalmStep(y0, Begin(0, Elsewhere(Disconnect(7))));
    y := Happen(y0, Begin(0, Elsewhere(Disconnect(7))));
  }

  lemma DriverJobExpires(s: State)
    requires Schema(s.db) && s.db == Offered(map[FIRST := Offer(6.0, OfferPending)])
    ensures Process(s, DRIVER_JOB) == s.(db := Offered(map[FIRST := Offer(6.0, OfferExpired)]))
  {
    assert PendingBy(s.db.offers, 7) == {FIRST};
    assert Expire(s.db.offers, {FIRST}) == map[FIRST := Offer(6.0, OfferExpired)];
  }

  /** The disconnect's job expires the offer. */
  lemma TheDriversOffersExpire() returns (y: Sys)
    ensures Calm(y) && Valid(y) && y.calls == map[] && y.s.db == Offered(map[FIRST := Offer(6.0, OfferExpired)])
    ensures JOB in y.s.jobs
  {
    var y0 := ADisconnect();
    DriverJobExpires(y0.s);
    y := CalmJob(y0, 1, DRIVER_JOB);
  }

  /** A worker takes the offer's own job, and finds nothing to do. */
  lemma AWorkerHoldsTheJob() returns (y: Sys)
    ensures Calm(y) && Valid(y) && y.calls == map[1 := Acknowledge(JOB, 1)]
    ensures y.s.db == Offered(map[FIRST := Offer(6.0, OfferExpired)]) && JOB in y.s.held && y.s.held[JOB] == 1
  {
    var y0 := TheDriversOffersExpire();
    y := CalmBegin(y0, 1, DoJob(JOB), Acknowledge(JOB, 1));
  }

  /** The driver submits again: the held job is neither removed nor replaced. */
  lemma AResubmissionIsIgnored() returns (y: Sys)
    ensures Calm(y) && Valid(y) && y.calls == map[1 := Acknowledge(JOB, 1)]
    ensures IsPending(y.s.db, FIRST) && JOB in y.s.held && y.s.held[JOB] == 1
  {
    var y0 := AWorkerHoldsTheJob();
    y := CalmSubmit(y0, 2, 2, FIRST, 8.0, 1);
  }

  /**
   * Level B, and nothing dies: an offer resubmitted while a worker holds its old
   * job stays PENDING with no job that waits or is held, and no call in flight.
   */
  lemma HeldJobBlocksANewOne()
    ensures exists y :: Calm(y) && y.calls == map[] && IsPending(y.s.db, FIRST) && JOB !in y.s.jobs && JOB !in y.s.held
  {
    var y0 := AResubmissionIsIgnored();
    var y := CalmResume(y0, 1, Acknowledge(JOB, 1));
    assert y.calls == map[];
  }

  // -------------------------------------- An accept turns away in silence

  lemma AnAcceptReadsNoOthers() returns (y: Sys)
    ensures Calm(y) && Valid(y) && y.calls == map[1 := WriteAccept(TICKET, 20, {})]
    ensures y.s.db == Offered(map[FIRST := Offer(6.0, OfferPending)])
  {
    var y0 := OneOffer();
    assert OtherPending(y0.s.db, FIRST) == {};
    y := AnAcceptReads(y0, {});
  }

  /** The second driver's submission lands between the accept's read and its commit. */
  lemma ASubmissionLands() returns (y: Sys)
    ensures Calm(y) && Valid(y) && y.calls == map[1 := WriteAccept(TICKET, 20, {})]
    ensures y.s.db == Offered(map[FIRST := Offer(6.0, OfferPending), SECOND := Offer(7.0, OfferPending)])
  {
    var y0 := AnAcceptReadsNoOthers();
    y := CalmSubmit(y0, 2, 3, SECOND, 7.0, 1);
  }

  /** The accept's commit turns some drivers away, and its next step tells no one. */
  ghost predicate TurnsAwayInSilence(y: Sys, id: nat) {
    && Valid(y) && Valid(Happen(y, Resume(id)))
    && TurnedAway(y.s.db, Happen(y, Resume(id)).s.db) != {}
    && Told(Happen(Happen(y, Resume(id)), Resume(id)).s) == Some({})
  }

  lemma SomeAreTurnedAway(y: Sys, id: nat)
    requires AboutToAccept(y, id) && y.calls[id].others == {}
    requires OtherPending(y.s.db, y.calls[id].accept.offer) != {}
    ensures TurnedAway(y.s.db, Happen(y, Resume(id)).s.db) != {}
  {
    AcceptReadsIff(y, id);
    assert DriverUsers(y.s.db, {}) == {};
  }

  lemma NoOneIsTold(y: Sys, id: nat)
    requires Valid(y) && id in y.calls && y.calls[id].RemoveJobs? && y.calls[id].others == {}
    ensures Told(Happen(y, Resume(id)).s) == Some({})
  {
    AcceptTells(y, id);
    assert DriverUsers(y.s.db, {}) == {};
  }

  lemma AcceptIsSilent(y: Sys, id: nat)
    requires AboutToAccept(y, id) && y.calls[id].others == {}
    requires OtherPending(y.s.db, y.calls[id].accept.offer) != {}
    ensures TurnsAwayInSilence(y, id)
  {
    SomeAreTurnedAway(y, id);
    HappenKeepsValid(y, Resume(id));
    var c := Happen(y, Resume(id));
    assert c.calls[id] == RemoveJobs(y.calls[id].accept, y.calls[id].trip, y.calls[id].others);
    NoOneIsTold(c, id);
  }

  /**
   * Level B, and nothing dies: an accept turns away an offer submitted between
   * its read and its commit, and its announcement names no one.
   */
  lemma AcceptCanTurnAwayInSilence()
    ensures exists y: Sys, id: nat :: Calm(y) && TurnsAwayInSilence(y, id)
  {
    var y := ASubmissionLands();
    assert SECOND in OtherPending(y.s.db, FIRST);
    assert !AcceptClashes(y.s.db, TICKET, 20);
    AcceptIsSilent(y, 1);
  }

  /** The cancellation's commit turns some drivers away, and tells no one. */
  ghost predicate CancelsInSilence(y: Sys, id: nat) {
    && Valid(y)
    && TurnedAway(y.s.db, Happen(y, Resume(id)).s.db) != {}
    && Told(Happen(y, Resume(id)).s) == Some({})
  }

  lemma CancelIsSilent(y: Sys, id: nat)
    requires Valid(y) && id in y.calls && y.calls[id].WriteCancel? && y.calls[id].cancel.affected == {}
    requires PendingFor(y.s.db.offers, y.calls[id].cancel.ride) != {}
    ensures CancelsInSilence(y, id)
  {
    var pending := PendingFor(y.s.db.offers, y.calls[id].cancel.ride);
    CancelTells(y, id);
    var o :| o in pending;
    assert y.s.db.profiles[o.driver].userId in DriverUsers(y.s.db, pending);
  }

  const CANCELLING := WriteCancel(CancelTicket(10, None, {}), None)

  lemma ACancellationHasRead() returns (y: Sys)
    ensures Calm(y) && Valid(y) && y.calls == map[1 := CANCELLING] && y.s.db == Offered(map[])
  {
    var y0 := ARide();
    assert PendingFor(y0.s.db.offers, 10) == {} && DriverUsers(y0.s.db, {}) == {};
    y := CalmBegin(y0, 1, DoCancel(10, 1, None), CANCELLING);
  }

  /** The same of a cancellation: the one driver it turns away is not told. */
  lemma CancelCanTurnAwayInSilence()
    ensures exists y: Sys, id: nat :: Calm(y) && CancelsInSilence(y, id)
  {
    var y0 := ACancellationHasRead();
    var y := CalmSubmit(y0, 2, 2, FIRST, 6.0, 1);
    assert FIRST in PendingFor(y.s.db.offers, 10);
    CancelIsSilent(y, 1);
  }
}
