/**
 * Offer expiry. Calls and job runs are single steps (Level A); the delivery
 * lemmas at the end allow jobs to be repeated and reordered at will.
 */
module RideTiming {
  import opened Common
  import opened RideModel
  import opened RideInvariant

  // --------------------------------------------------------------- History

  /** When the offer was last submitted. */
  function LastSubmission(log: seq<Entry>, o: OfferId): Option<Millis> {
    if log == [] then None else
    var e := log[|log| - 1];
    if e.Submitted? && e.offer == o then Some(e.at) else LastSubmission(log[..|log| - 1], o)
  }

  function Submissions(log: seq<Entry>, o: OfferId): nat {
    if log == [] then 0 else
    var e := log[|log| - 1];
    Submissions(log[..|log| - 1], o) + if e.Submitted? && e.offer == o then 1 else 0
  }

  function ExpiryEvents(log: seq<Entry>, o: OfferId): nat {
    if log == [] then 0 else
    var e := log[|log| - 1];
    ExpiryEvents(log[..|log| - 1], o) + if e.OfferExpiredEvent? && e.offer == o then 1 else 0
  }

  lemma {:induction false} Appended(log: seq<Entry>, e: Entry, o: OfferId)
    ensures LastSubmission(log + [e], o) == if e.Submitted? && e.offer == o then Some(e.at) else LastSubmission(log, o)
    ensures Submissions(log + [e], o) == Submissions(log, o) + if e.Submitted? && e.offer == o then 1 else 0
    ensures ExpiryEvents(log + [e], o) == ExpiryEvents(log, o) + if e.OfferExpiredEvent? && e.offer == o then 1 else 0
  {
    assert (log + [e])[..|log|] == log;
  }

  // ------------------------------------------------------- Timed invariant

  function Term(s: State): Millis {
    s.expirySeconds * 1000
  }

  /** A pending offer's expire job waits, due one term after the offer's latest submission. */
  ghost predicate TimedOffer(s: State, o: OfferId) {
    IsPending(s.db, o) ==>
      && ExpireOffer(o) in s.jobs
      && LastSubmission(s.log, o).Some?
      && s.jobs[ExpireOffer(o)] == LastSubmission(s.log, o).value + Term(s)
  }

  /** Each submission of an offer pays for at most one expiry event. */
  predicate EventsPaid(s: State, o: OfferId) {
    ExpiryEvents(s.log, o) + (if IsPending(s.db, o) then 1 else 0) <= Submissions(s.log, o)
  }

  /** At Level A a worker takes and finishes a job in one step, and so holds none in between. */
  ghost predicate Settled(s: State, o: OfferId) {
    TimedOffer(s, o) && EventsPaid(s, o) && s.held == map[]
  }

  /** A step that leaves an offer's job and history alone, and does not make it pending, keeps it settled. */
  lemma {:induction false} StaysSettled(s: State, s': State, o: OfferId)
    requires Settled(s, o) && s'.expirySeconds == s.expirySeconds && s'.held == s.held
    requires IsPending(s'.db, o) ==>
      && IsPending(s.db, o)
      && ExpireOffer(o) in s'.jobs
      && (ExpireOffer(o) in s.jobs ==> s'.jobs[ExpireOffer(o)] == s.jobs[ExpireOffer(o)])
      && LastSubmission(s'.log, o) == LastSubmission(s.log, o)
    requires ExpiryEvents(s'.log, o) - Submissions(s'.log, o) + (if IsPending(s'.db, o) then 1 else 0)
          <= ExpiryEvents(s.log, o) - Submissions(s.log, o) + (if IsPending(s.db, o) then 1 else 0)
    ensures Settled(s', o)
  {
  }

  /** With no job held, scheduling an offer's expiry anew replaces its job. */
  lemma RescheduleReplaces(s: State, offer: OfferId)
    requires s.held == map[]
    ensures Schedule(Unschedule(s, {offer}), offer) ==
      s.(jobs := s.jobs[ExpireOffer(offer) := Due(s)], finished := s.finished - {ExpireOffer(offer)})
  {
    assert (set o | o in {offer} && ExpireOffer(o) !in s.held :: ExpireOffer(o)) == {ExpireOffer(offer)};
    var job := ExpireOffer(offer);
    assert (s.jobs - {job})[job := Due(s)] == s.jobs[job := Due(s)];
  }

  lemma {:induction false} UpsertKeepsSettled(s: State, offer: OfferId, fare: real, rider: UserId, o: OfferId)
    requires Settled(s, o) && offer.ride in s.db.rides && offer.driver in s.db.profiles
    ensures var s1 := Write(s, CommitUpsert(s.db, offer, fare), Submitted(offer, fare, s.now));
      Settled(Emit(Schedule(Unschedule(s1, {offer}), offer), OfferSubmittedEvent(offer, rider)), o)
  {
    var s1 := Write(s, CommitUpsert(s.db, offer, fare), Submitted(offer, fare, s.now));
    RescheduleReplaces(s1, offer);
    Appended(s.log, Submitted(offer, fare, s.now), o);
    Appended(s1.log, OfferSubmittedEvent(offer, rider), o);
  }

  lemma SubmitKeepsSettled(s: State, driver: UserId, ride: RideId, fare: real, o: OfferId)
    requires Schema(s.db) && Settled(s, o)
    ensures Settled(SubmitOffer(s, driver, ride, fare).state, o)
  {
    if SubmitOffer(s, driver, ride, fare).reply == Ok {
      var offer := OfferId(ride, ProfileOf(s.db, driver).value);
      UpsertKeepsSettled(s, offer, fare, CheckRideOpen(s.db, ride).value, o);
    }
  }

  /** What an accept does to any one offer: it may lose PENDING, and its job only with it. */
  lemma AcceptSparesOthers(s: State, rider: UserId, offer: OfferId, trip: TripId, o: OfferId)
    requires Schema(s.db) && AcceptOffer(s, rider, offer, trip).reply == Ok
    ensures var s' := AcceptOffer(s, rider, offer, trip).state;
      && (IsPending(s'.db, o) ==>
            && IsPending(s.db, o)
            && (ExpireOffer(o) in s.jobs ==>
                  ExpireOffer(o) in s'.jobs && s'.jobs[ExpireOffer(o)] == s.jobs[ExpireOffer(o)]))
      && s'.expirySeconds == s.expirySeconds && s'.held == s.held
      && exists e: Entry :: e.OfferAcceptedEvent? && s'.log == s.log + [Accepted(offer, trip)] + [e]
  {
    var s' := AcceptOffer(s, rider, offer, trip).state;
    assert s'.log[|s'.log| - 1].OfferAcceptedEvent?;
    assert s'.log == s.log + [Accepted(offer, trip)] + [s'.log[|s'.log| - 1]];
  }

  lemma AcceptKeepsSettled(s: State, rider: UserId, offer: OfferId, trip: TripId, o: OfferId)
    requires Schema(s.db) && Settled(s, o)
    ensures Settled(AcceptOffer(s, rider, offer, trip).state, o)
  {
    var s' := AcceptOffer(s, rider, offer, trip).state;
    if AcceptOffer(s, rider, offer, trip).reply == Ok {
      AcceptSparesOthers(s, rider, offer, trip, o);
      var e: Entry :| e.OfferAcceptedEvent? && s'.log == s.log + [Accepted(offer, trip)] + [e];
      Appended(s.log, Accepted(offer, trip), o);
      Appended(s.log + [Accepted(offer, trip)], e, o);
      StaysSettled(s, s', o);
    }
  }

  lemma WriteKeepsSettled(s: State, db: Db, e: Entry, o: OfferId)
    requires Settled(s, o) && !e.Submitted? && !e.OfferExpiredEvent? && (IsPending(db, o) ==> IsPending(s.db, o))
    ensures Settled(Write(s, db, e), o)
  {
    Appended(s.log, e, o);
  }

  lemma ExpiryKeepsSettled(s: State, offer: OfferId, o: OfferId)
    requires Schema(s.db) && Settled(s, o)
    ensures Settled(Settle(Process(s, ExpireOffer(offer)), ExpireOffer(offer)), o)
  {
    if IsPending(s.db, offer) {
      Appended(s.log, OfferExpiredEvent(offer, s.db.profiles[offer.driver].userId), o);
    }
  }

  lemma DriverExpiryKeepsSettled(s: State, driver: ProfileId, o: OfferId)
    requires Schema(s.db) && Settled(s, o)
    ensures Settled(Settle(Process(s, ExpireDriverOffers(driver)), ExpireDriverOffers(driver)), o)
  {
  }

  lemma JobKeepsSettled(s: State, job: Job, o: OfferId)
    requires Schema(s.db) && Settled(s, o)
    ensures Settled(Apply(s, DoJob(job)), o)
  {
    match job
    case ExpireOffer(offer) => ExpiryKeepsSettled(s, offer, o);
    case ExpireDriverOffers(driver) => DriverExpiryKeepsSettled(s, driver, o);
  }

  lemma CancelKeepsSettled(s: State, ride: RideId, user: UserId, reason: Option<string>, o: OfferId)
    requires Schema(s.db) && Settled(s, o)
    ensures Settled(CancelRide(s, ride, user, reason).state, o)
  {
    match CheckCancel(s.db, ride, user)
    case Fail(_) =>
    case Pass(k) => WriteKeepsSettled(s, CommitCancel(s.db, k, reason), RideCancelledEvent(ride, k.affected), o);
  }

  lemma StartKeepsSettled(s: State, trip: TripId, user: UserId, o: OfferId)
    requires Schema(s.db) && Settled(s, o)
    ensures Settled(StartTrip(s, trip, user).state, o)
  {
    match CheckTrip(s.db, trip, user, TripMatched)
    case Fail(_) =>
    case Pass(ride) =>
      WriteKeepsSettled(s, CommitTrip(s.db, trip, ride, TripStarted, RideInProgress), TripStartedEvent(trip), o);
  }

  lemma CompleteKeepsSettled(s: State, trip: TripId, user: UserId, o: OfferId)
    requires Schema(s.db) && Settled(s, o)
    ensures Settled(CompleteTrip(s, trip, user).state, o)
  {
    match CheckTrip(s.db, trip, user, TripStarted)
    case Fail(_) =>
    case Pass(ride) =>
      WriteKeepsSettled(s, CommitTrip(s.db, trip, ride, TripCompleted, RideCompleted), TripCompletedEvent(trip), o);
  }

  lemma OtherStepKeepsSettled(s: State, step: OtherStep, o: OfferId)
    requires Settled(s, o)
    ensures Settled(ApplyOther(s, step), o)
  {
    StaysSettled(s, ApplyOther(s, step), o);
  }

  lemma StepKeepsSettled(s: State, step: Step, o: OfferId)
    requires Schema(s.db) && Settled(s, o)
    ensures Settled(Apply(s, step), o)
  {
    match step
    case DoSubmit(driver, ride, fare) => SubmitKeepsSettled(s, driver, ride, fare, o);
    case DoAccept(rider, offer, trip) => AcceptKeepsSettled(s, rider, offer, trip, o);
    case DoCreateRide(_, _, _) =>
    case DoJob(job) => JobKeepsSettled(s, job, o);
    case Tick(_) =>
    case Elsewhere(other) => OtherStepKeepsSettled(s, other, o);
    case DoCancel(ride, user, reason) => CancelKeepsSettled(s, ride, user, reason, o);
    case DoStart(trip, user) => StartKeepsSettled(s, trip, user, o);
    case DoComplete(trip, user) => CompleteKeepsSettled(s, trip, user, o);
  }

  lemma StepKeepsTerm(s: State, step: Step)
    requires Schema(s.db)
    ensures Apply(s, step).expirySeconds == s.expirySeconds
    ensures NoneOverdue(s) && (step.Tick? ==> forall j :: j in s.jobs ==> s.jobs[j] >= step.to) ==>
      NoneOverdue(Apply(s, step))
  {
  }

  // -------------------------------------------------------- Prompt workers

  /** Time never passes a waiting job: due jobs run before it advances. */
  ghost predicate Prompt(s: State, steps: seq<Step>)
    requires Coupled(s.db)
    decreases |steps|
  {
    if steps == [] then true else
    StepIsSound(s, steps[0]);
    (steps[0].Tick? ==> forall j :: j in s.jobs ==> s.jobs[j] >= steps[0].to)
    && Prompt(Apply(s, steps[0]), steps[1..])
  }

  predicate NoneOverdue(s: State) {
    forall j :: j in s.jobs ==> s.jobs[j] >= s.now
  }

  lemma {:induction false} PromptRunIsOnTime(s: State, steps: seq<Step>)
    requires Coupled(s.db) && NoneOverdue(s) && Prompt(s, steps)
    ensures NoneOverdue(Run(s, steps))
    decreases |steps|
  {
    if steps != [] {
      StepIsSound(s, steps[0]);
      StepKeepsTerm(s, steps[0]);
      PromptRunIsOnTime(Apply(s, steps[0]), steps[1..]);
    }
  }

  /** Level A. Every PENDING offer has its expire job waiting, due one term after the latest submission. */
  lemma {:induction false} PendingOffersAreTimed(expirySeconds: nat, steps: seq<Step>, o: OfferId)
    requires IsPending(RunFromEmpty(expirySeconds, steps).db, o)
    ensures var s := RunFromEmpty(expirySeconds, steps);
      && ExpireOffer(o) in s.jobs
      && LastSubmission(s.log, o).Some?
      && s.jobs[ExpireOffer(o)] == LastSubmission(s.log, o).value + expirySeconds * 1000
  {
    RunKeepsSettled(Initial(expirySeconds), steps, o);
    TermIsFixed(Initial(expirySeconds), steps);
  }

  lemma {:induction false} TermIsFixed(s: State, steps: seq<Step>)
    requires Coupled(s.db)
    ensures Run(s, steps).expirySeconds == s.expirySeconds
    decreases |steps|
  {
    if steps != [] {
      StepIsSound(s, steps[0]);
      StepKeepsTerm(s, steps[0]);
      TermIsFixed(Apply(s, steps[0]), steps[1..]);
    }
  }

  /** Level A. With prompt workers no offer stays PENDING beyond OFFER_EXPIRY_SECONDS after its latest submission. */
  lemma {:induction false} NoOfferOutstays(expirySeconds: nat, steps: seq<Step>, o: OfferId)
    requires Prompt(Initial(expirySeconds), steps)
    requires IsPending(RunFromEmpty(expirySeconds, steps).db, o)
    ensures var s := RunFromEmpty(expirySeconds, steps);
      LastSubmission(s.log, o).Some? && s.now <= LastSubmission(s.log, o).value + expirySeconds * 1000
  {
    PendingOffersAreTimed(expirySeconds, steps, o);
    PromptRunIsOnTime(Initial(expirySeconds), steps);
  }

  /** Level A. Over any run, an offer is reported expired at most once per submission. */
  lemma {:induction false} ExpiryEventsArePaid(expirySeconds: nat, steps: seq<Step>, o: OfferId)
    ensures var log := RunFromEmpty(expirySeconds, steps).log; ExpiryEvents(log, o) <= Submissions(log, o)
  {
    RunKeepsSettled(Initial(expirySeconds), steps, o);
  }

  lemma {:induction false} RunKeepsSettled(s: State, steps: seq<Step>, o: OfferId)
    requires Coupled(s.db) && Settled(s, o)
    ensures Settled(Run(s, steps), o)
    decreases |steps|
  {
    if steps != [] {
      StepIsSound(s, steps[0]);
      StepKeepsSettled(s, steps[0], o);
      RunKeepsSettled(Apply(s, steps[0]), steps[1..], o);
    }
  }

  // ------------------------------------------------------------ Driver jobs

  /** The driver's job is done, and the queue keeps its id. */
  predicate DriverJobSpent(s: State, driver: ProfileId) {
    var job := ExpireDriverOffers(driver);
    job in s.finished && job !in s.jobs && job !in s.held
  }

  lemma StepKeepsSpent(s: State, step: Step, driver: ProfileId)
    requires Schema(s.db) && DriverJobSpent(s, driver)
    ensures DriverJobSpent(Apply(s, step), driver)
  {
  }

  /** Level A. Once a driver's job has run, no later disconnect of that driver is ever scheduled. */
  lemma {:induction false} DriverJobRunsOnce(s: State, steps: seq<Step>, driver: ProfileId)
    requires Coupled(s.db) && ExpireDriverOffers(driver) in s.jobs && s.jobs[ExpireDriverOffers(driver)] <= s.now
    ensures DriverJobSpent(Run(s, [DoJob(ExpireDriverOffers(driver))] + steps), driver)
  {
    var job := DoJob(ExpireDriverOffers(driver));
    StepIsSound(s, job);
    assert ([job] + steps)[1..] == steps;
    RunKeepsSpent(Apply(s, job), steps, driver);
  }

  lemma {:induction false} RunKeepsSpent(s: State, steps: seq<Step>, driver: ProfileId)
    requires Coupled(s.db) && DriverJobSpent(s, driver)
    ensures DriverJobSpent(Run(s, steps), driver)
    decreases |steps|
  {
    if steps != [] {
      StepIsSound(s, steps[0]);
      StepKeepsSpent(s, steps[0], driver);
      RunKeepsSpent(Apply(s, steps[0]), steps[1..], driver);
    }
  }

  // -------------------------------------------------------------- Delivery

  /** The handlers run once per delivery, whatever the queue does. */
  function Deliver(s: State, jobs: seq<Job>): (r: State)
    requires Schema(s.db)
    ensures Schema(r.db)
    decreases |jobs|
  {
    if jobs == [] then s else
    ProcessKeepsSchema(s, jobs[0]);
    Deliver(Process(s, jobs[0]), jobs[1..])
  }

  lemma ProcessKeepsSchema(s: State, job: Job)
    requires Schema(s.db)
    ensures Schema(Process(s, job).db)
  {
    match job
    case ExpireOffer(offer) => if IsPending(s.db, offer) { PerformKeepsSchema(s.db, ExpireOne(offer)); }
    case ExpireDriverOffers(driver) => PerformKeepsSchema(s.db, ExpireAll(driver));
  }

  /** The pending offers that a set of jobs is about: named ones, and those of drivers who exist and are off line. */
  function Doomed(d: Db, jobs: set<Job>): set<OfferId> {
    set o | o in d.offers && d.offers[o].status == OfferPending
      && (ExpireOffer(o) in jobs
          || (ExpireDriverOffers(o.driver) in jobs && o.driver in d.profiles && !d.profiles[o.driver].isOnline))
  }

  function Jobs(jobs: seq<Job>): set<Job> {
    set j | j in jobs
  }

  lemma ProcessExpiresDoomed(s: State, job: Job)
    requires Schema(s.db)
    ensures Process(s, job).db == s.db.(offers := Expire(s.db.offers, Doomed(s.db, {job})))
  {
    match job
    case ExpireOffer(offer) =>
      assert Doomed(s.db, {job}) == if IsPending(s.db, offer) then {offer} else {};
      assert Process(s, job).db.offers == Expire(s.db.offers, Doomed(s.db, {job}));
    case ExpireDriverOffers(driver) =>
      assert Doomed(s.db, {job}) == if DriverIsAway(s.db, driver) then PendingBy(s.db.offers, driver) else {};
      assert Process(s, job).db.offers == Expire(s.db.offers, Doomed(s.db, {job}));
  }

  /** Expiring in two goes is expiring at once. */
  lemma ExpireTwice(d: Db, first: set<Job>, rest: set<Job>)
    ensures var e := d.(offers := Expire(d.offers, Doomed(d, first)));
      Expire(e.offers, Doomed(e, rest)) == Expire(d.offers, Doomed(d, first + rest))
  {
  }

  lemma {:induction false} DeliveryExpiresDoomed(s: State, jobs: seq<Job>)
    requires Schema(s.db)
    ensures Deliver(s, jobs).db == s.db.(offers := Expire(s.db.offers, Doomed(s.db, Jobs(jobs))))
    decreases |jobs|
  {
    if jobs == [] {
      assert Expire(s.db.offers, Doomed(s.db, Jobs(jobs))) == s.db.offers;
    } else {
      ProcessKeepsSchema(s, jobs[0]);
      ProcessExpiresDoomed(s, jobs[0]);
      DeliveryExpiresDoomed(Process(s, jobs[0]), jobs[1..]);
      ExpireTwice(s.db, {jobs[0]}, Jobs(jobs[1..]));
      assert Jobs(jobs) == {jobs[0]} + Jobs(jobs[1..]);
    }
  }

  /** Any order and any repetition of the same jobs leave the same tables, and change pending offers only. */
  lemma {:induction false} DeliveryOrderIsIrrelevant(s: State, once: seq<Job>, delivered: seq<Job>)
    requires Schema(s.db) && Jobs(once) == Jobs(delivered)
    ensures Deliver(s, delivered).db == Deliver(s, once).db
    ensures forall o :: o in s.db.offers && s.db.offers[o].status != OfferPending ==>
      o in Deliver(s, delivered).db.offers && Deliver(s, delivered).db.offers[o] == s.db.offers[o]
  {
    DeliveryExpiresDoomed(s, once);
    DeliveryExpiresDoomed(s, delivered);
  }

  /** However often its jobs are delivered, a pending period ends in at most one event. */
  lemma {:induction false} AtMostOneExpiryEvent(s: State, jobs: seq<Job>, o: OfferId)
    requires Schema(s.db)
    ensures ExpiryEvents(Deliver(s, jobs).log, o) + (if IsPending(Deliver(s, jobs).db, o) then 1 else 0)
         <= ExpiryEvents(s.log, o) + if IsPending(s.db, o) then 1 else 0
    decreases |jobs|
  {
    if jobs != [] {
      var next := Process(s, jobs[0]);
      ProcessKeepsSchema(s, jobs[0]);
      if jobs[0].ExpireOffer? && IsPending(s.db, jobs[0].offer) {
        Appended(s.log, OfferExpiredEvent(jobs[0].offer, s.db.profiles[jobs[0].offer.driver].userId), o);
      }
      AtMostOneExpiryEvent(next, jobs[1..], o);
    }
  }
}
