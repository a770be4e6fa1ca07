/**
 * The fare on an offer's row is the one its driver submitted last, in every
 * interleaving; the fare agreed in a trip is too, wherever the coupling holds.
 */
module RideFares {
  import opened Common
  import opened RideModel
  import opened RideInvariant
  import opened RideCalls
  import opened RideInterleaving
  import opened RideAnnouncements
  import C = RideCalm

  /** The fare of the offer's latest submission. */
  function LatestFare(log: seq<Entry>, o: OfferId): Option<real> {
    if log == [] then None else
    var e := log[|log| - 1];
    if e.Submitted? && e.offer == o then Some(e.fare) else LatestFare(log[..|log| - 1], o)
  }

  /** An offer is on file exactly when it was submitted, at the fare of its latest submission. */
  ghost predicate RowsLatest(s: State) {
    forall o {:trigger LatestFare(s.log, o)} ::
      LatestFare(s.log, o) == if o in s.db.offers then Some(s.db.offers[o].fare) else None
  }

  lemma {:induction false} LatestAppended(log: seq<Entry>, e: Entry, o: OfferId)
    ensures LatestFare(log + [e], o) == if e.Submitted? && e.offer == o then Some(e.fare) else LatestFare(log, o)
  {
    assert (log + [e])[..|log|] == log;
  }

  // ---------------------------------------------------------------- Keeping

  ghost predicate SameFares(d: Db, e: Db) {
    e.offers.Keys == d.offers.Keys && forall o :: o in d.offers ==> e.offers[o].fare == d.offers[o].fare
  }

  lemma {:induction false} QuietKeepsRows(s: State, s': State)
    requires RowsLatest(s) && SameFares(s.db, s'.db) && s'.log == s.log
    ensures RowsLatest(s')
  {
  }

  lemma {:induction false} EntryKeepsRows(s: State, s': State, e: Entry)
    requires RowsLatest(s) && SameFares(s.db, s'.db) && s'.log == s.log + [e] && !e.Submitted?
    ensures RowsLatest(s')
  {
    forall o ensures LatestFare(s'.log, o) == LatestFare(s.log, o) { LatestAppended(s.log, e, o); }
  }

  lemma {:induction false} SubmissionKeepsRows(s: State, s': State, o: OfferId, fare: real, at: Millis)
    requires RowsLatest(s) && s'.db.offers == s.db.offers[o := Offer(fare, OfferPending)]
    requires s'.log == s.log + [Submitted(o, fare, at)]
    ensures RowsLatest(s')
  {
    forall p ensures LatestFare(s'.log, p) == if p == o then Some(fare) else LatestFare(s.log, p) {
      LatestAppended(s.log, Submitted(o, fare, at), p);
    }
  }

  // ---------------------------------------------------------------- Level A

  lemma SubmitKeepsRows(s: State, driver: UserId, ride: RideId, fare: real)
    requires Schema(s.db) && RowsLatest(s)
    ensures RowsLatest(SubmitOffer(s, driver, ride, fare).state)
  {
    SubmitSucceedsIff(s, driver, ride, fare);
    if SubmitOffer(s, driver, ride, fare).reply == Ok {
      SubmitEffect(s, driver, ride, fare);
      var s' := SubmitOffer(s, driver, ride, fare).state;
      var o := OfferId(ride, s.db.profileByUser[driver]);
      var e := OfferSubmittedEvent(o, s.db.rides[ride].riderId);
      var m := s'.(log := s.log + [Submitted(o, fare, s.now)]);
      SubmissionKeepsRows(s, m, o, fare, s.now);
      assert s'.log == m.log + [e];
      EntryKeepsRows(m, s', e);
    }
  }

  lemma AcceptKeepsRows(s: State, rider: UserId, offer: OfferId, trip: TripId)
    requires Schema(s.db) && RowsLatest(s)
    ensures RowsLatest(AcceptOffer(s, rider, offer, trip).state)
  {
    AcceptRepliesIff(s, rider, offer, trip);
    if AcceptOffer(s, rider, offer, trip).reply == Ok {
      AcceptEffect(s, rider, offer, trip);
      RideCalls.AcceptTells(s, rider, offer, trip);
      var s' := AcceptOffer(s, rider, offer, trip).state;
      var e := s'.log[|s.log| + 1];
      var m := s'.(log := s.log + [Accepted(offer, trip)]);
      EntryKeepsRows(s, m, Accepted(offer, trip));
      assert s'.log == m.log + [e];
      EntryKeepsRows(m, s', e);
    }
  }

  lemma CancelKeepsRows(s: State, ride: RideId, user: UserId, reason: Option<string>)
    requires Schema(s.db) && RowsLatest(s)
    ensures RowsLatest(CancelRide(s, ride, user, reason).state)
  {
    CancelSucceedsIff(s, ride, user, reason);
    if CancelRide(s, ride, user, reason).reply == Ok {
      CancelEffect(s, ride, user, reason);
      RideCalls.CancelTells(s, ride, user, reason);
      var s' := CancelRide(s, ride, user, reason).state;
      EntryKeepsRows(s, s', s'.log[|s.log|]);
    }
  }

  lemma TripKeepsRows(s: State, trip: TripId, user: UserId)
    requires Schema(s.db) && RowsLatest(s)
    ensures RowsLatest(StartTrip(s, trip, user).state) && RowsLatest(CompleteTrip(s, trip, user).state)
  {
    StartSucceedsIff(s, trip, user);
    CompleteSucceedsIff(s, trip, user);
    if StartTrip(s, trip, user).reply == Ok {
      EntryKeepsRows(s, StartTrip(s, trip, user).state, TripStartedEvent(trip));
    }
    if CompleteTrip(s, trip, user).reply == Ok {
      EntryKeepsRows(s, CompleteTrip(s, trip, user).state, TripCompletedEvent(trip));
    }
  }

  lemma JobKeepsRows(s: State, job: Job)
    requires Schema(s.db) && RowsLatest(s)
    ensures RowsLatest(Apply(s, DoJob(job)))
  {
    var s' := Apply(s, DoJob(job));
    if job in s.jobs && s.jobs[job] <= s.now {
      match job
      case ExpireOffer(o) =>
        OfferJobEffect(s, o);
        if o in s.db.offers && s.db.offers[o].status == OfferPending {
          EntryKeepsRows(s, s', OfferExpiredEvent(o, s.db.profiles[o.driver].userId));
        } else {
          QuietKeepsRows(s, s');
        }
      case ExpireDriverOffers(driver) =>
        DriverJobEffect(s, driver);
        QuietKeepsRows(s, s');
    } else {
      EarlyJobEffect(s, job);
    }
  }

  lemma StepKeepsRows(s: State, step: Step)
    requires Schema(s.db) && RowsLatest(s)
    ensures RowsLatest(Apply(s, step))
  {
    match step
    case DoSubmit(driver, ride, fare) => SubmitKeepsRows(s, driver, ride, fare);
    case DoAccept(rider, offer, trip) => AcceptKeepsRows(s, rider, offer, trip);
    case DoCancel(ride, user, reason) => CancelKeepsRows(s, ride, user, reason);
    case DoStart(trip, user) => TripKeepsRows(s, trip, user);
    case DoComplete(trip, user) => TripKeepsRows(s, trip, user);
    case DoJob(job) => JobKeepsRows(s, job);
    case _ =>
      OutsideGrows(s, step);
      QuietKeepsRows(s, Apply(s, step));
  }

  lemma {:induction false} RunKeepsRows(s: State, steps: seq<Step>)
    requires Coupled(s.db) && RowsLatest(s)
    ensures RowsLatest(Run(s, steps))
    decreases |steps|
  {
    if steps != [] {
      StepIsSound(s, steps[0]);
      StepKeepsRows(s, steps[0]);
      RunKeepsRows(Apply(s, steps[0]), steps[1..]);
    }
  }

  /** The trip's agreed fare is the latest its driver submitted for its ride. */
  ghost predicate AgreedIsLatest(s: State, t: TripId)
    requires t in s.db.trips
  {
    exists p: ProfileId ::
      && p in s.db.profiles && s.db.profiles[p].userId == s.db.trips[t].driverId
      && LatestFare(s.log, OfferId(s.db.trips[t].rideId, p)) == Some(s.db.trips[t].agreedFare)
  }

  lemma {:induction false} CoupledFaresAreLatest(s: State, t: TripId)
    requires Coupled(s.db) && RowsLatest(s) && t in s.db.trips
    ensures AgreedIsLatest(s, t)
  {
    var trip := s.db.trips[t];
    assert RideCoupled(s.db, trip.rideId) && s.db.tripByRide[trip.rideId] == t;
    var p := s.db.profileByUser[trip.driverId];
    assert s.db.offers[OfferId(trip.rideId, p)].fare == trip.agreedFare;
    assert LatestFare(s.log, OfferId(trip.rideId, p)) == Some(trip.agreedFare);
  }

  /** Level A, every run: offers carry the fare of their latest submission, and so do trips that of their driver's. */
  lemma {:induction false} FaresAreLatest(expirySeconds: nat, steps: seq<Step>, o: OfferId, t: TripId)
    ensures var s := RunFromEmpty(expirySeconds, steps);
      && (o in s.db.offers <==> LatestFare(s.log, o).Some?)
      && (o in s.db.offers ==> LatestFare(s.log, o) == Some(s.db.offers[o].fare))
      && (t in s.db.trips ==> AgreedIsLatest(s, t))
  {
    RunKeepsRows(Initial(expirySeconds), steps);
    var s := RunFromEmpty(expirySeconds, steps);
    assert LatestFare(s.log, o) == if o in s.db.offers then Some(s.db.offers[o].fare) else None;
    if t in s.db.trips { CoupledFaresAreLatest(s, t); }
  }

  // ---------------------------------------------------------------- Level B

  lemma PerformFares(d: Db, c: Commit)
    requires Holds(d, c) && !c.Upsert?
    ensures SameFares(d, Perform(d, c))
  {
  }

  lemma NextFares(s: State, k: Cont)
    requires Schema(s.db) && Remembers(s, k) && !k.WriteOffer?
    ensures SameFares(s.db, Next(s, k).s.db)
  {
    NextPerforms(s, k);
    if CommitOf(k).Some? { PerformFares(s.db, CommitOf(k).value); }
  }

  lemma NextEntry(s: State, k: Cont)
    requires Schema(s.db) && Remembers(s, k) && !k.WriteOffer? && Next(s, k).s.log != s.log
    ensures exists e: Entry :: !e.Submitted? && Next(s, k).s.log == s.log + [e]
  {
    var log := Next(s, k).s.log;
    assert log == s.log + [log[|s.log|]];
  }

  lemma NextKeepsRows(s: State, k: Cont)
    requires Schema(s.db) && Remembers(s, k) && RowsLatest(s)
    ensures RowsLatest(Next(s, k).s)
  {
    var s' := Next(s, k).s;
    if k.WriteOffer? {
      SubmissionKeepsRows(s, s', k.offer, k.fare, s.now);
    } else {
      NextFares(s, k);
      if s'.log == s.log {
        QuietKeepsRows(s, s');
      } else {
        NextEntry(s, k);
        var e: Entry :| !e.Submitted? && s'.log == s.log + [e];
        EntryKeepsRows(s, s', e);
      }
    }
  }

  lemma HappenKeepsRows(y: Sys, e: Event)
    requires Valid(y) && RowsLatest(y.s)
    ensures RowsLatest(Happen(y, e).s)
  {
    var s' := Happen(y, e).s;
    match e
    case Begin(id, call) =>
      if !IsCall(call) { OutsideGrows(y.s, call); }
      QuietKeepsRows(y.s, s');
    case Resume(id) => if id in y.calls { NextKeepsRows(y.s, y.calls[id]); }
    case Crash(_) => QuietKeepsRows(y.s, s');
    case Requeue(_, _) => QuietKeepsRows(y.s, s');
    case GiveUp(_) => QuietKeepsRows(y.s, s');
  }

  lemma {:induction false} RunAllKeepsRows(y: Sys, events: seq<Event>)
    requires Valid(y) && RowsLatest(y.s)
    ensures RowsLatest(RunAll(y, events).s)
    decreases |events|
  {
    if events != [] {
      HappenKeepsValid(y, events[0]);
      HappenKeepsRows(y, events[0]);
      RunAllKeepsRows(Happen(y, events[0]), events[1..]);
    }
  }

  lemma {:induction false} FromEmptyRowsLatest(expirySeconds: nat, events: seq<Event>)
    ensures RowsLatest(FromEmpty(expirySeconds, events).s)
  {
    RunAllKeepsRows(Sys(Initial(expirySeconds), map[]), events);
  }

  /** Level B. In every interleaving offers carry the fare of their latest submission. */
  lemma {:induction false} FaresAreLatestInterleaved(expirySeconds: nat, events: seq<Event>, o: OfferId)
    ensures var s := FromEmpty(expirySeconds, events).s;
      && (o in s.db.offers <==> LatestFare(s.log, o).Some?)
      && (o in s.db.offers ==> LatestFare(s.log, o) == Some(s.db.offers[o].fare))
  {
    FromEmptyRowsLatest(expirySeconds, events);
    var s := FromEmpty(expirySeconds, events).s;
    assert LatestFare(s.log, o) == if o in s.db.offers then Some(s.db.offers[o].fare) else None;
  }

  // ------------------------------------------------ Agreed fares at Level B

  /** The trip's fare is the one on the row of its driver's offer. */
  predicate AgreesWithRow(d: Db, t: TripId)
    requires t in d.trips
  {
    var o := OfferOf(d, d.trips[t]);
    o.Some? && o.value in d.offers && d.offers[o.value].fare == d.trips[t].agreedFare
  }

  /** That is, in every interleaving, the latest fare its driver submitted for its ride. */
  lemma {:induction false} AgreesIffLatest(expirySeconds: nat, events: seq<Event>, t: TripId)
    requires t in FromEmpty(expirySeconds, events).s.db.trips
    ensures var s := FromEmpty(expirySeconds, events).s; AgreesWithRow(s.db, t) <==> AgreedIsLatest(s, t)
  {
    var s := FromEmpty(expirySeconds, events).s;
    FromEmptyRowsLatest(expirySeconds, events);
    if AgreesWithRow(s.db, t) {
      var o := OfferOf(s.db, s.db.trips[t]).value;
      assert o.driver in s.db.profiles && LatestFare(s.log, o) == Some(s.db.trips[t].agreedFare);
    }
    if AgreedIsLatest(s, t) {
      var p: ProfileId :| p in s.db.profiles && s.db.profiles[p].userId == s.db.trips[t].driverId
        && LatestFare(s.log, OfferId(s.db.trips[t].rideId, p)) == Some(s.db.trips[t].agreedFare);
      assert s.db.profileByUser[s.db.trips[t].driverId] == p;
    }
  }

  ghost predicate FaresAgree(d: Db) {
    forall t {:trigger AgreesWithRow(d, t)} :: t in d.trips ==> AgreesWithRow(d, t)
  }

  /**
   * What has to be so for the event to leave every agreed fare its driver's
   * latest: an accept commits the fare on the row, and no offer behind a trip is
   * resubmitted at another fare.
   */
  ghost predicate KeepsFares(y: Sys, e: Event) {
    e.Resume? && e.id in y.calls ==>
      match y.calls[e.id]
      case WriteAccept(k, trip, _) =>
        !AcceptClashes(y.s.db, k, trip) && k.offer in y.s.db.offers ==> y.s.db.offers[k.offer].fare == k.fare
      case WriteOffer(o, fare, _) =>
        forall t :: t in y.s.db.trips && OfferOf(y.s.db, y.s.db.trips[t]) == Some(o) ==>
          y.s.db.trips[t].agreedFare == fare
      case _ => true
  }

  /** Trips that stay, with their deals and the fares on the rows, go on agreeing as they did. */
  lemma AgreementStays(d: Db, e: Db, t: TripId)
    requires Grows(d, e) && t in d.trips
    requires var o := OfferOf(d, d.trips[t]);
      o.Some? && o.value in d.offers && e.offers[o.value].fare == d.offers[o.value].fare
    ensures AgreesWithRow(e, t) <==> AgreesWithRow(d, t)
  {
  }

  lemma SameFaresAgree(d: Db, e: Db)
    requires FaresAgree(d) && Grows(d, e) && SameFares(d, e) && e.trips.Keys == d.trips.Keys
    ensures FaresAgree(e)
  {
    forall t | t in e.trips ensures AgreesWithRow(e, t) {
      assert AgreesWithRow(d, t);
      AgreementStays(d, e, t);
    }
  }

  lemma AcceptAgreesIff(d: Db, k: AcceptTicket, trip: TripId)
    requires Schema(d) && FaresAgree(d) && AcceptTicketHolds(d, k) && !AcceptClashes(d, k, trip)
    ensures FaresAgree(CommitAccept(d, k, trip)) <==> d.offers[k.offer].fare == k.fare
  {
    var e := CommitAccept(d, k, trip);
    AcceptGrows(d, k, trip);
    forall t | t in d.trips ensures AgreesWithRow(e, t) {
      assert AgreesWithRow(d, t);
      AgreementStays(d, e, t);
    }
    assert OfferOf(e, e.trips[trip]) == Some(k.offer);
    assert AgreesWithRow(e, trip) <==> d.offers[k.offer].fare == k.fare;
  }

  lemma UpsertAgreesIff(d: Db, o: OfferId, fare: real)
    requires FaresAgree(d) && o.ride in d.rides && o.driver in d.profiles
    ensures FaresAgree(CommitUpsert(d, o, fare)) <==>
      forall t :: t in d.trips && OfferOf(d, d.trips[t]) == Some(o) ==> d.trips[t].agreedFare == fare
  {
    var e := CommitUpsert(d, o, fare);
    forall t | t in d.trips
      ensures AgreesWithRow(e, t) <==> (OfferOf(d, d.trips[t]) == Some(o) ==> d.trips[t].agreedFare == fare)
    {
      assert AgreesWithRow(d, t);
    }
  }

  lemma NextAgreesIff(y: Sys, id: nat)
    requires Valid(y) && FaresAgree(y.s.db) && id in y.calls
    ensures FaresAgree(Happen(y, Resume(id)).s.db) <==> KeepsFares(y, Resume(id))
  {
    var k := y.calls[id];
    assert Remembers(y.s, k);
    NextPerforms(y.s, k);
    if k.WriteOffer? {
      UpsertAgreesIff(y.s.db, k.offer, k.fare);
    } else if k.WriteAccept? {
      if !AcceptClashes(y.s.db, k.accept, k.trip) { AcceptAgreesIff(y.s.db, k.accept, k.trip); }
    } else if CommitOf(k).Some? {
      PerformFares(y.s.db, CommitOf(k).value);
      CommitKeepsOffers(y.s.db, CommitOf(k).value);
      PerformKeepsSchema(y.s.db, CommitOf(k).value);
      SameFaresAgree(y.s.db, Perform(y.s.db, CommitOf(k).value));
    }
  }

  /** Level B. Agreed fares stay their drivers' latest through an event exactly when KeepsFares says so. */
  lemma FaresAgreeIff(y: Sys, e: Event)
    requires Valid(y) && FaresAgree(y.s.db)
    ensures FaresAgree(Happen(y, e).s.db) <==> KeepsFares(y, e)
  {
    match e
    case Begin(_, call) =>
      if !IsCall(call) {
        OutsideGrows(y.s, call);
        SameFaresAgree(y.s.db, Apply(y.s, call).db);
      }
    case Resume(id) => if id in y.calls { NextAgreesIff(y, id); }
    case Crash(_) =>
    case Requeue(_, _) =>
    case GiveUp(_) =>
  }

  ghost predicate AlwaysAgree(y: Sys, events: seq<Event>)
    requires Valid(y)
    decreases |events|
  {
    if events == [] then FaresAgree(y.s.db) else
    HappenKeepsValid(y, events[0]);
    FaresAgree(y.s.db) && AlwaysAgree(Happen(y, events[0]), events[1..])
  }

  ghost predicate AllKeepFares(y: Sys, events: seq<Event>)
    requires Valid(y)
    decreases |events|
  {
    if events == [] then true else
    HappenKeepsValid(y, events[0]);
    KeepsFares(y, events[0]) && AllKeepFares(Happen(y, events[0]), events[1..])
  }

  lemma {:induction false} AlwaysAgreeIff(y: Sys, events: seq<Event>)
    requires Valid(y) && FaresAgree(y.s.db)
    ensures AlwaysAgree(y, events) <==> AllKeepFares(y, events)
    decreases |events|
  {
    if events != [] {
      HappenKeepsValid(y, events[0]);
      FaresAgreeIff(y, events[0]);
      if KeepsFares(y, events[0]) { AlwaysAgreeIff(Happen(y, events[0]), events[1..]); }
    }
  }

  /**
   * Level B, every run from the empty system: agreed fares are those on their
   * drivers' rows, which are the latest submitted, throughout the run if and
   * only if every event keeps them so.
   */
  lemma {:induction false} RunAgreesIff(expirySeconds: nat, events: seq<Event>)
    ensures var y := Sys(Initial(expirySeconds), map[]); AlwaysAgree(y, events) <==> AllKeepFares(y, events)
  {
    AlwaysAgreeIff(Sys(Initial(expirySeconds), map[]), events);
  }

  // ------------------------------------------------------------ A stale fare

  /** An accept takes the fare it read; the row keeps its own. */
  lemma CommitFares(y: Sys, id: nat)
    requires AboutToAccept(y, id)
    ensures var k := y.calls[id]; var d := Happen(y, Resume(id)).s.db;
      && k.trip in d.trips && d.trips[k.trip].agreedFare == k.accept.fare
      && d.trips[k.trip].rideId == k.accept.offer.ride
      && k.accept.offer in d.offers && d.offers[k.accept.offer].fare == y.s.db.offers[k.accept.offer].fare
  {
    assert Remembers(y.s, y.calls[id]);
  }

  lemma CalmRowsLatest(y: Sys)
    requires C.Calm(y)
    ensures RowsLatest(y.s)
  {
    var events :| C.AllCalm(events) && FromEmpty(60, events) == y;
    FromEmptyRowsLatest(60, events);
  }

  lemma AfterSubmitTables(s: State, o: OfferId, fare: real, rider: UserId)
    requires o.ride in s.db.rides && o.driver in s.db.profiles
    ensures C.AfterSubmit(s, o, fare, rider).db == s.db.(offers := s.db.offers[o := Offer(fare, OfferPending)])
  {
  }

  /** An accept has read the first offer at 6.0 when it is resubmitted at 8.0. */
  lemma AResubmissionLands() returns (y: Sys)
    ensures C.Calm(y) && Valid(y) && y.calls == map[1 := WriteAccept(C.TICKET, 20, {})]
    ensures y.s.db == C.Offered(map[C.FIRST := Offer(8.0, OfferPending)])
  {
    var y0 := C.AnAcceptReadsNoOthers();
    y := C.CalmSubmit(y0, 2, 2, C.FIRST, 8.0, 1);
    AfterSubmitTables(y0.s, C.FIRST, 8.0, 1);
  }

  /** Level B, and nothing dies: an accept agrees on a fare that its driver has replaced since it was read. */
  lemma FareCanBeStale()
    ensures exists y: Sys ::
      && C.Calm(y) && 20 in y.s.db.trips && y.s.db.trips[20].rideId == 10
      && y.s.db.trips[20].agreedFare == 6.0 && LatestFare(y.s.log, C.FIRST) == Some(8.0)
  {
    var y0 := AResubmissionLands();
    assert !AcceptClashes(y0.s.db, C.TICKET, 20);
    CommitFares(y0, 1);
    C.CalmStep(y0, Resume(1));
    CalmRowsLatest(Happen(y0, Resume(1)));
    assert LatestFare(Happen(y0, Resume(1)).s.log, C.FIRST) == Some(8.0);
  }
}
