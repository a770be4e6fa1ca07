/**
 * Level B of the announcements: an accept and a cancellation tell the drivers
 * they read as PENDING; when are those the drivers they turn away?
 */
module RideAnnouncements {
  import opened Common
  import opened RideModel
  import opened RideInvariant
  import opened RideInterleaving

  lemma GrowsTransitive(s: State, m: State, e: State)
    requires StateGrows(s, m) && StateGrows(m, e)
    ensures StateGrows(s, e)
  {
  }

  lemma {:induction false} RunGrows(y: Sys, events: seq<Event>)
    requires Valid(y)
    ensures StateGrows(y.s, RunAll(y, events).s)
    decreases |events|
  {
    if events != [] {
      HappenKeepsValid(y, events[0]);
      RunGrows(Happen(y, events[0]), events[1..]);
      GrowsTransitive(y.s, Happen(y, events[0]).s, RunAll(y, events).s);
    }
  }

  ghost predicate OnRide(d: Db, offers: set<OfferId>, ride: RideId) {
    forall o :: o in offers ==> o.ride == ride && o.driver in d.profiles
  }

  /** On one ride, each offer has a driver of its own. */
  lemma DriversTellOffers(d: Db, ride: RideId, a: set<OfferId>, b: set<OfferId>)
    requires Indexed(d) && OnRide(d, a, ride) && OnRide(d, b, ride)
    ensures DriverUsers(d, a) == DriverUsers(d, b) <==> a == b
  {
    if DriverUsers(d, a) == DriverUsers(d, b) {
      SameDriversSameOffers(d, ride, a, b);
      SameDriversSameOffers(d, ride, b, a);
    }
  }

  lemma SameDriversSameOffers(d: Db, ride: RideId, a: set<OfferId>, b: set<OfferId>)
    requires Indexed(d) && OnRide(d, a, ride) && OnRide(d, b, ride) && DriverUsers(d, a) <= DriverUsers(d, b)
    ensures a <= b
  {
    forall o | o in a ensures o in b {
      assert d.profiles[o.driver].userId in DriverUsers(d, b);
      var p :| p in b && d.profiles[p.driver].userId == d.profiles[o.driver].userId;
      assert p.driver == o.driver;
    }
  }

  /** Profiles keep their users. */
  lemma DriversStay(d: Db, e: Db, offers: set<OfferId>)
    requires Grows(d, e) && forall o :: o in offers ==> o.driver in d.profiles
    ensures (forall o :: o in offers ==> o.driver in e.profiles) && DriverUsers(e, offers) == DriverUsers(d, offers)
  {
    assert forall o :: o in offers ==> e.profiles[o.driver].userId == d.profiles[o.driver].userId;
  }

  lemma AcceptFlips(d: Db, k: AcceptTicket, trip: TripId)
    requires Schema(d) && AcceptTicketHolds(d, k) && !AcceptClashes(d, k, trip)
    ensures Flipped(d, CommitAccept(d, k, trip)) == OtherPending(d, k.offer)
    ensures OnRide(d, OtherPending(d, k.offer), k.offer.ride)
  {
  }

  lemma CancelFlips(d: Db, k: CancelTicket, reason: Option<string>)
    requires Schema(d) && CancelTicketHolds(d, k)
    ensures Flipped(d, CommitCancel(d, k, reason)) == PendingFor(d.offers, k.ride)
    ensures OnRide(d, PendingFor(d.offers, k.ride), k.ride)
  {
  }

  /** The users whose offers went from PENDING to EXPIRED. */
  function TurnedAway(d: Db, e: Db): set<UserId> {
    set o | o in Flipped(d, e) && o.driver in d.profiles :: d.profiles[o.driver].userId
  }

  /** The users named by the announcement that ends the log. */
  function Told(s: State): Option<set<UserId>> {
    if s.log == [] then None else
    match s.log[|s.log| - 1]
    case OfferAcceptedEvent(_, _, rejected) => Some(rejected)
    case RideCancelledEvent(_, affected) => Some(affected)
    case _ => None
  }

  /** A call that is about to commit an accept which no row refuses. */
  ghost predicate AboutToAccept(y: Sys, id: nat) {
    && Valid(y) && id in y.calls && y.calls[id].WriteAccept?
    && !AcceptClashes(y.s.db, y.calls[id].accept, y.calls[id].trip)
  }

  lemma AcceptReadsIff(y: Sys, id: nat)
    requires AboutToAccept(y, id)
    ensures forall o :: o in y.calls[id].others ==> o.driver in y.s.db.profiles
    ensures DriverUsers(y.s.db, y.calls[id].others) == TurnedAway(y.s.db, Happen(y, Resume(id)).s.db) <==>
      y.calls[id].others == OtherPending(y.s.db, y.calls[id].accept.offer)
  {
    var k := y.calls[id];
    assert Remembers(y.s, k);
    AcceptFlips(y.s.db, k.accept, k.trip);
    DriversTellOffers(y.s.db, k.accept.offer.ride, k.others, OtherPending(y.s.db, k.accept.offer));
  }

  lemma AcceptTells(y: Sys, id: nat)
    requires Valid(y) && id in y.calls && y.calls[id].RemoveJobs?
    ensures forall o :: o in y.calls[id].others ==> o.driver in y.s.db.profiles
    ensures Told(Happen(y, Resume(id)).s) == Some(DriverUsers(y.s.db, y.calls[id].others))
  {
    assert Remembers(y.s, y.calls[id]);
  }

  lemma DriversStayOverRun(y: Sys, events: seq<Event>, offers: set<OfferId>)
    requires Valid(y) && forall o :: o in offers ==> o.driver in y.s.db.profiles
    ensures forall o :: o in offers ==> o.driver in RunAll(y, events).s.db.profiles
    ensures DriverUsers(RunAll(y, events).s.db, offers) == DriverUsers(y.s.db, offers)
  {
    RunGrows(y, events);
    DriversStay(y.s.db, RunAll(y, events).s.db, offers);
  }

  /**
   * Level B. Whatever happens between an accept's commit and its announcement,
   * the drivers announced as rejected are those whose offers the commit expired
   * if and only if the offers it had read are the ride's other PENDING offers
   * when it commits.
   */
  lemma {:induction false} AcceptAnnouncesIff(y: Sys, id: nat, events: seq<Event>)
    requires AboutToAccept(y, id) && Valid(Happen(y, Resume(id)))
    requires var z := RunAll(Happen(y, Resume(id)), events); var k := y.calls[id];
      id in z.calls && z.calls[id] == RemoveJobs(k.accept, k.trip, k.others)
    ensures var z := RunAll(Happen(y, Resume(id)), events); var c := Happen(y, Resume(id));
      Told(Happen(z, Resume(id)).s) == Some(TurnedAway(y.s.db, c.s.db)) <==>
        y.calls[id].others == OtherPending(y.s.db, y.calls[id].accept.offer)
  {
    var c := Happen(y, Resume(id));
    AcceptReadsIff(y, id);
    HappenKeepsValid(y, Resume(id));
    DriversStay(y.s.db, c.s.db, y.calls[id].others);
    DriversStayOverRun(c, events, y.calls[id].others);
    AcceptTells(RunAll(c, events), id);
  }

  lemma CancelTells(y: Sys, id: nat)
    requires Valid(y) && id in y.calls && y.calls[id].WriteCancel?
    ensures Told(Happen(y, Resume(id)).s) == Some(y.calls[id].cancel.affected)
    ensures OnRide(y.s.db, PendingFor(y.s.db.offers, y.calls[id].cancel.ride), y.calls[id].cancel.ride)
    ensures TurnedAway(y.s.db, Happen(y, Resume(id)).s.db) ==
      DriverUsers(y.s.db, PendingFor(y.s.db.offers, y.calls[id].cancel.ride))
  {
    var k := y.calls[id];
    assert Remembers(y.s, k);
    CancelFlips(y.s.db, k.cancel, k.reason);
  }

  /**
   * Level B. Whatever happens between a cancellation's read and its commit, the
   * drivers told are those whose offers the commit expired if and only if the
   * ride's PENDING offers are those it had read.
   */
  lemma {:induction false} CancelAnnouncesIff(y: Sys, id: nat, call: Step, events: seq<Event>)
    requires Valid(y) && call.DoCancel? && id !in y.calls && CheckCancel(y.s.db, call.ride, call.user).Pass?
    requires Valid(Happen(y, Begin(id, call)))
    requires var z := RunAll(Happen(y, Begin(id, call)), events);
      id in z.calls && z.calls[id] == WriteCancel(CheckCancel(y.s.db, call.ride, call.user).value, call.reason)
    ensures var z := RunAll(Happen(y, Begin(id, call)), events); var c := Happen(z, Resume(id));
      Told(c.s) == Some(TurnedAway(z.s.db, c.s.db)) <==>
        PendingFor(z.s.db.offers, call.ride) == PendingFor(y.s.db.offers, call.ride)
  {
    var b := Happen(y, Begin(id, call));
    var z := RunAll(b, events);
    var read := PendingFor(y.s.db.offers, call.ride);
    DriversStayOverRun(b, events, read);
    CancelTells(z, id);
    DriversTellOffers(z.s.db, call.ride, read, PendingFor(z.s.db.offers, call.ride));
  }
}
