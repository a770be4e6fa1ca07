/**
 * Ratings of completed trips and the mean each user's profile shows, on top
 * of the whole negotiation. Level A throughout.
 */
module Ratings {
  import opened Common
  import opened RideModel
  import opened RideInvariant
  import opened RidePeople

  /** A row, unique by trip, author and recipient. */
  datatype Rating = Rating(trip: TripId, from: UserId, to: UserId, score: int)

  datatype System = System(
    s: State,
    ratings: seq<Rating>,
    scores: map<UserId, real>)  // users.rating, where it is no longer the default

  datatype Rated = Rated(z: System, reply: Reply)

  const DEFAULT_RATING := 5.0

  function Score(z: System, user: UserId): real {
    if user in z.scores then z.scores[user] else DEFAULT_RATING
  }

  function Received(ratings: seq<Rating>, user: UserId): seq<int> {
    if ratings == [] then [] else
    var last := ratings[|ratings| - 1];
    Received(ratings[..|ratings| - 1], user) + if last.to == user then [last.score] else []
  }

  function Sum(xs: seq<int>): int {
    if xs == [] then 0 else Sum(xs[..|xs| - 1]) + xs[|xs| - 1]
  }

  /** The aggregate over a user's received ratings; null becomes the default. */
  function Mean(ratings: seq<Rating>, user: UserId): real {
    var scores := Received(ratings, user);
    if scores == [] then DEFAULT_RATING else Sum(scores) as real / |scores| as real
  }

  function Recalculate(z: System, user: UserId): System {
    z.(scores := z.scores[user := Mean(z.ratings, user)])
  }

  predicate AlreadyRated(ratings: seq<Rating>, trip: TripId, from: UserId, to: UserId) {
    exists i :: 0 <= i < |ratings| && ratings[i].trip == trip && ratings[i].from == from && ratings[i].to == to
  }

  /** The other seat, the rider's being tried first. */
  function Recipient(t: Trip, from: UserId): Option<UserId> {
    if from == t.riderId then Some(t.driverId) else if from == t.driverId then Some(t.riderId) else None
  }

  function RateTrip(z: System, trip: TripId, from: UserId, score: int): Rated {
    if !(1 <= score <= 5) then Rated(z, BadRequest)
    else if trip !in z.s.db.trips then Rated(z, NotFound)
    else if z.s.db.trips[trip].status != TripCompleted then Rated(z, Forbidden)
    else
      match Recipient(z.s.db.trips[trip], from)
      case None => Rated(z, Forbidden)
      case Some(to) =>
        if AlreadyRated(z.ratings, trip, from, to) then Rated(z, Conflict)
        else Rated(Recalculate(z.(ratings := z.ratings + [Rating(trip, from, to, score)]), to), Ok)
  }

  // ------------------------------------------------------------- Invariant

  predicate RatingOk(d: Db, r: Rating) {
    && r.trip in d.trips && d.trips[r.trip].status == TripCompleted
    && Recipient(d.trips[r.trip], r.from) == Some(r.to)
    && 1 <= r.score <= 5
  }

  ghost predicate OncePerAuthor(ratings: seq<Rating>) {
    forall i, j :: 0 <= i < j < |ratings| ==>
      !(ratings[i].trip == ratings[j].trip && ratings[i].from == ratings[j].from)
  }

  ghost predicate RatingsOk(z: System) {
    && (forall i :: 0 <= i < |z.ratings| ==> RatingOk(z.s.db, z.ratings[i]))
    && OncePerAuthor(z.ratings)
  }

  ghost predicate ScoresOk(z: System) {
    forall u :: Score(z, u) == Mean(z.ratings, u)
  }

  ghost predicate Valid(z: System) {
    Coupled(z.s.db) && RatingsOk(z) && ScoresOk(z)
  }

  lemma {:induction false} ReceivedAppended(ratings: seq<Rating>, r: Rating, user: UserId)
    ensures Received(ratings + [r], user) == Received(ratings, user) + if r.to == user then [r.score] else []
  {
    assert (ratings + [r])[..|ratings|] == ratings;
  }

  lemma {:induction false} SumAppended(xs: seq<int>, x: int)
    ensures Sum(xs + [x]) == Sum(xs) + x
  {
    assert (xs + [x])[..|xs|] == xs;
  }

  /** A rating is accepted exactly once per participant of a completed trip. */
  lemma RatedIffAllowed(z: System, trip: TripId, from: UserId, score: int)
    requires Valid(z)
    ensures RateTrip(z, trip, from, score).reply == Ok <==>
      && 1 <= score <= 5
      && trip in z.s.db.trips && z.s.db.trips[trip].status == TripCompleted
      && (from == z.s.db.trips[trip].riderId || from == z.s.db.trips[trip].driverId)
      && !(exists i :: 0 <= i < |z.ratings| && z.ratings[i].trip == trip && z.ratings[i].from == from)
    ensures RateTrip(z, trip, from, score).reply != Ok ==> RateTrip(z, trip, from, score).z == z
  {
    if trip in z.s.db.trips && Recipient(z.s.db.trips[trip], from).Some? {
      var to := Recipient(z.s.db.trips[trip], from).value;
      forall i | 0 <= i < |z.ratings| && z.ratings[i].trip == trip && z.ratings[i].from == from
        ensures AlreadyRated(z.ratings, trip, from, to)
      {
        assert RatingOk(z.s.db, z.ratings[i]);
      }
    }
  }

  /** Which refusal a rating gets otherwise. */
  lemma RatingRefusals(z: System, trip: TripId, from: UserId, score: int)
    requires Valid(z)
    ensures var reply := RateTrip(z, trip, from, score).reply; var d := z.s.db;
      var scored := 1 <= score <= 5;
      var over := scored && trip in d.trips && d.trips[trip].status == TripCompleted;
      var seated := over && (from == d.trips[trip].riderId || from == d.trips[trip].driverId);
      && (reply == BadRequest <==> !scored)
      && (reply == NotFound <==> scored && trip !in d.trips)
      && (reply == Forbidden <==> scored && trip in d.trips && !seated)
      && (reply == Conflict <==>
            seated && exists i :: 0 <= i < |z.ratings| && z.ratings[i].trip == trip && z.ratings[i].from == from)
  {
    RatedIffAllowed(z, trip, from, score);
  }

  /** The row carries the score given, from its author to the other seat; only that user's scores and mean change. */
  lemma {:induction false} RateEffect(z: System, trip: TripId, from: UserId, score: int)
    requires RateTrip(z, trip, from, score).reply == Ok
    ensures trip in z.s.db.trips
    ensures var z' := RateTrip(z, trip, from, score).z; var t := z.s.db.trips[trip];
      var to := if from == t.riderId then t.driverId else t.riderId;
      var scores := Received(z.ratings, to) + [score];
      && z'.s == z.s && z'.ratings == z.ratings + [Rating(trip, from, to, score)]
      && Received(z'.ratings, to) == scores
      && Score(z', to) == (Sum(Received(z.ratings, to)) + score) as real / |scores| as real
      && (forall u :: u != to ==> Received(z'.ratings, u) == Received(z.ratings, u) && Score(z', u) == Score(z, u))
  {
    var t := z.s.db.trips[trip];
    var to := if from == t.riderId then t.driverId else t.riderId;
    var r := Rating(trip, from, to, score);
    ReceivedAppended(z.ratings, r, to);
    SumAppended(Received(z.ratings, to), score);
    forall u | u != to ensures Received(z.ratings + [r], u) == Received(z.ratings, u) {
      ReceivedAppended(z.ratings, r, u);
    }
  }

  lemma RateKeepsValid(z: System, trip: TripId, from: UserId, score: int)
    requires Valid(z)
    ensures Valid(RateTrip(z, trip, from, score).z)
  {
    if RateTrip(z, trip, from, score).reply == Ok {
      RatedIffAllowed(z, trip, from, score);
      var to := Recipient(z.s.db.trips[trip], from).value;
      var r := Rating(trip, from, to, score);
      var z' := RateTrip(z, trip, from, score).z;
      assert z'.ratings == z.ratings + [r];
      forall u ensures Score(z', u) == Mean(z'.ratings, u) {
        ReceivedAppended(z.ratings, r, u);
        assert Score(z, u) == Mean(z.ratings, u);
        if u != to { assert Received(z'.ratings, u) == Received(z.ratings, u); }
      }
    }
  }

  // ----------------------------------------------- Completed trips stay so

  lemma CompletedStays(d: Db, e: Db, t: TripId)
    requires Coupled(d) && Sound(d, e) && Grows(d, e) && t in d.trips && d.trips[t].status == TripCompleted
    ensures t in e.trips && e.trips[t].status == TripCompleted && SameDeal(d.trips[t], e.trips[t])
  {
    var r := d.trips[t].rideId;
    assert d.rides[r].status == RideCompleted by { assert RideCoupled(d, r); }
    assert LegalMove(d.rides[r].status, e.rides[r].status);
    assert e.trips[t].rideId == r && e.tripByRide[r] == t;
    assert RideCoupled(e, r);
  }

  lemma StepKeepsCompleted(s: State, step: Step, t: TripId)
    requires Coupled(s.db) && t in s.db.trips && s.db.trips[t].status == TripCompleted
    ensures var e := Apply(s, step).db;
      t in e.trips && e.trips[t].status == TripCompleted && SameDeal(s.db.trips[t], e.trips[t])
  {
    StepIsSound(s, step);
    StepGrows(s, step);
    CompletedStays(s.db, Apply(s, step).db, t);
  }

  lemma RatingStays(s: State, step: Step, r: Rating)
    requires Coupled(s.db) && RatingOk(s.db, r)
    ensures RatingOk(Apply(s, step).db, r)
  {
    StepKeepsCompleted(s, step, r.trip);
  }

  lemma RideStepKeepsValid(z: System, step: Step)
    requires Valid(z)
    ensures Valid(z.(s := Apply(z.s, step)))
  {
    StepIsSound(z.s, step);
    forall i | 0 <= i < |z.ratings| ensures RatingOk(Apply(z.s, step).db, z.ratings[i]) {
      RatingStays(z.s, step, z.ratings[i]);
    }
    forall u ensures Score(z.(s := Apply(z.s, step)), u) == Mean(z.ratings, u) {
      assert Score(z, u) == Mean(z.ratings, u);
    }
  }

  // ------------------------------------------------------------------ Runs

  datatype Move = Rate(trip: TripId, from: UserId, score: int) | Ride(step: Step)

  function Make(z: System, m: Move): System
    requires Schema(z.s.db)
  {
    match m
    case Rate(trip, from, score) => RateTrip(z, trip, from, score).z
    case Ride(step) => z.(s := Apply(z.s, step))
  }

  lemma MakeKeepsValid(z: System, m: Move)
    requires Valid(z)
    ensures Valid(Make(z, m))
    ensures z.ratings <= Make(z, m).ratings
  {
    match m
    case Rate(trip, from, score) => RateKeepsValid(z, trip, from, score);
    case Ride(step) => RideStepKeepsValid(z, step);
  }

  ghost function Play(z: System, moves: seq<Move>): (r: System)
    requires Valid(z)
    ensures Valid(r)
    decreases |moves|
  {
    if moves == [] then z else
    MakeKeepsValid(z, moves[0]);
    Play(Make(z, moves[0]), moves[1..])
  }

  function Begin(expirySeconds: nat): System {
    System(Initial(expirySeconds), [], map[])
  }

  lemma {:induction false} SumBounds(xs: seq<int>)
    requires forall i :: 0 <= i < |xs| ==> 1 <= xs[i] <= 5
    ensures |xs| <= Sum(xs) <= 5 * |xs|
    decreases |xs|
  {
    if xs != [] { SumBounds(xs[..|xs| - 1]); }
  }

  lemma {:induction false} ReceivedBounds(ratings: seq<Rating>, user: UserId)
    requires forall i :: 0 <= i < |ratings| ==> 1 <= ratings[i].score <= 5
    ensures forall i :: 0 <= i < |Received(ratings, user)| ==> 1 <= Received(ratings, user)[i] <= 5
    decreases |ratings|
  {
    if ratings != [] { ReceivedBounds(ratings[..|ratings| - 1], user); }
  }

  lemma QuotientBounds(sum: int, n: nat)
    requires n > 0 && n <= sum <= 5 * n
    ensures 1.0 <= sum as real / n as real <= 5.0
  {
    var mean := sum as real / n as real;
    assert mean * n as real == sum as real;
    if mean < 1.0 { ProductIsPositive(1.0 - mean, n as real); }
    if mean > 5.0 { ProductIsPositive(mean - 5.0, n as real); }
  }

  lemma ProductIsPositive(a: real, b: real)
    requires a > 0.0 && b > 0.0
    ensures a * b > 0.0
  {
  }

  lemma MeanBounds(ratings: seq<Rating>, user: UserId)
    requires forall i :: 0 <= i < |ratings| ==> 1 <= ratings[i].score <= 5
    ensures 1.0 <= Mean(ratings, user) <= 5.0
  {
    ReceivedBounds(ratings, user);
    var scores := Received(ratings, user);
    SumBounds(scores);
    if scores != [] { QuotientBounds(Sum(scores), |scores|); }
  }

  /** Every run: a user's rating is the mean of the scores received, or 5 with none, and lies from 1 to 5. */
  lemma {:induction false} RatingIsMean(expirySeconds: nat, moves: seq<Move>, user: UserId)
    ensures var z := Play(Begin(expirySeconds), moves);
      var scores := Received(z.ratings, user);
      && Score(z, user) == (if scores == [] then 5.0 else Sum(scores) as real / |scores| as real)
      && 1.0 <= Score(z, user) <= 5.0
  {
    var z := Play(Begin(expirySeconds), moves);
    assert Score(z, user) == Mean(z.ratings, user);
    forall i | 0 <= i < |z.ratings| ensures 1 <= z.ratings[i].score <= 5 {
      assert RatingOk(z.s.db, z.ratings[i]);
    }
    MeanBounds(z.ratings, user);
  }

  /** The authors of a trip's ratings. */
  function Authors(ratings: seq<Rating>, trip: TripId): seq<UserId> {
    if ratings == [] then [] else
    var last := ratings[|ratings| - 1];
    Authors(ratings[..|ratings| - 1], trip) + if last.trip == trip then [last.from] else []
  }

  ghost predicate RatedBy(ratings: seq<Rating>, trip: TripId, user: UserId) {
    exists i :: 0 <= i < |ratings| && ratings[i].trip == trip && ratings[i].from == user
  }

  lemma {:induction false} AuthorsAreDistinct(ratings: seq<Rating>, trip: TripId)
    requires OncePerAuthor(ratings)
    ensures forall u :: u in Authors(ratings, trip) ==> RatedBy(ratings, trip, u)
    ensures forall i, j :: 0 <= i < j < |Authors(ratings, trip)| ==>
      Authors(ratings, trip)[i] != Authors(ratings, trip)[j]
    decreases |ratings|
  {
    if ratings != [] {
      var rest, last := ratings[..|ratings| - 1], ratings[|ratings| - 1];
      AuthorsAreDistinct(rest, trip);
      forall u | u in Authors(rest, trip) ensures RatedBy(ratings, trip, u) && (last.trip == trip ==> u != last.from) {
        var i :| 0 <= i < |rest| && rest[i].trip == trip && rest[i].from == u;
        assert ratings[i].trip == trip && ratings[i].from == u;
      }
      assert last.trip == trip ==> ratings[|ratings| - 1].trip == trip && RatedBy(ratings, trip, last.from);
    }
  }

  lemma {:induction false} AuthorsTookPart(z: System, trip: TripId, user: UserId)
    requires RatingsOk(z) && user in Authors(z.ratings, trip)
    ensures trip in z.s.db.trips && (user == z.s.db.trips[trip].riderId || user == z.s.db.trips[trip].driverId)
  {
    AuthorsAreDistinct(z.ratings, trip);
    var i :| 0 <= i < |z.ratings| && z.ratings[i].trip == trip && z.ratings[i].from == user;
    assert RatingOk(z.s.db, z.ratings[i]);
  }

  /** Of three authors taken from two seats, two are the same. */
  lemma ThreeInTwoSeats(users: seq<UserId>, a: UserId, b: UserId)
    requires |users| > 2 && forall u :: u in users ==> u == a || u == b
    ensures exists i, j :: 0 <= i < j < |users| && users[i] == users[j]
  {
    assert users[0] in users && users[1] in users && users[2] in users;
    assert users[0] == users[1] || users[0] == users[2] || users[1] == users[2];
  }

  /** Every run: a trip has at most two ratings, by different participants. */
  lemma {:induction false} AtMostTwoRatings(expirySeconds: nat, moves: seq<Move>, trip: TripId)
    ensures var z := Play(Begin(expirySeconds), moves); var authors := Authors(z.ratings, trip);
      && |authors| <= 2
      && (forall i, j :: 0 <= i < j < |authors| ==> authors[i] != authors[j])
      && (authors != [] ==> trip in z.s.db.trips)
      && forall u :: u in authors ==> u == z.s.db.trips[trip].riderId || u == z.s.db.trips[trip].driverId
  {
    var z := Play(Begin(expirySeconds), moves);
    var authors := Authors(z.ratings, trip);
    forall u | u in authors
      ensures trip in z.s.db.trips && (u == z.s.db.trips[trip].riderId || u == z.s.db.trips[trip].driverId)
    {
      AuthorsTookPart(z, trip, u);
    }
    AuthorsAreDistinct(z.ratings, trip);
    if authors != [] {
      assert authors[0] in authors;
      if |authors| > 2 { ThreeInTwoSeats(authors, z.s.db.trips[trip].riderId, z.s.db.trips[trip].driverId); }
    }
  }

  /** Every run: a rating stays, from one seat of its trip to the other, and its trip is and stays COMPLETED. */
  lemma {:induction false} RatedTripsStayCompleted(z: System, moves: seq<Move>, i: nat)
    requires Valid(z) && i < |z.ratings|
    ensures var later := Play(z, moves); var r := z.ratings[i];
      && i < |later.ratings| && later.ratings[i] == r
      && r.trip in later.s.db.trips && later.s.db.trips[r.trip].status == TripCompleted
      && var t := later.s.db.trips[r.trip]; (r.from, r.to) in {(t.riderId, t.driverId), (t.driverId, t.riderId)}
    decreases |moves|
  {
    assert RatingOk(z.s.db, z.ratings[i]);
    if moves != [] {
      MakeKeepsValid(z, moves[0]);
      RatedTripsStayCompleted(Make(z, moves[0]), moves[1..], i);
    }
  }
}

/** The rating calls as they run, proved to be RateTrip. */
module RatingServices {
  import opened Common
  import opened RideModel
  import opened Ratings
  import R = RideServices

  class Tables {
    const rides: R.Backend
    var ratings: seq<Rating>
    var scores: map<UserId, real>

    ghost function View(): System
      reads this, rides
    {
      System(rides.View(), ratings, scores)
    }

    constructor (rides: R.Backend)
      ensures this.rides == rides && ratings == [] && scores == map[]
    {
      this.rides := rides;
      ratings, scores := [], map[];
    }
  }

  class UsersService {
    const shared: Tables

    constructor (shared: Tables)
      ensures this.shared == shared
    {
      this.shared := shared;
    }

    /** The database's aggregate over the rows the user received. */
    method Aggregate(user: UserId) returns (sum: int, count: nat)
      ensures sum == Sum(Received(shared.ratings, user)) && count == |Received(shared.ratings, user)|
    {
      sum, count := 0, 0;
      var i := 0;
      while i < |shared.ratings|
        invariant 0 <= i <= |shared.ratings|
        invariant count == |Received(shared.ratings[..i], user)|
        invariant sum == Sum(Received(shared.ratings[..i], user))
      {
        var rating := shared.ratings[i];
        assert shared.ratings[..i + 1] == shared.ratings[..i] + [rating];
        ReceivedAppended(shared.ratings[..i], rating, user);
        if rating.to == user {
          SumAppended(Received(shared.ratings[..i], user), rating.score);
          sum, count := sum + rating.score, count + 1;
        } else {
          assert Received(shared.ratings[..i], user) + [] == Received(shared.ratings[..i], user);
        }
        i := i + 1;
      }
      assert shared.ratings[..i] == shared.ratings;
    }

    /** Whatever the stored score was, it is the mean now; if all others were, all are. */
    method RecalculateRating(user: UserId)
      modifies shared`scores
      ensures shared.View() == Recalculate(old(shared.View()), user)
      ensures Score(shared.View(), user) == Mean(shared.ratings, user)
      ensures (forall u :: u != user ==> Score(old(shared.View()), u) == Mean(shared.ratings, u)) ==>
        ScoresOk(shared.View())
    {
      var sum, count := Aggregate(user);
      shared.scores := shared.scores[user := if count == 0 then DEFAULT_RATING else sum as real / count as real];
    }
  }

  class RatingsService {
    const usersService: UsersService

    constructor (usersService: UsersService)
      ensures this.usersService == usersService
    {
      this.usersService := usersService;
    }

    /** The request's validation, then the service call. */
    method RateTrip(trip: TripId, from: UserId, score: int) returns (reply: Reply)
      modifies usersService.shared
      ensures Rated(usersService.shared.View(), reply) ==
        Ratings.RateTrip(old(usersService.shared.View()), trip, from, score)
    {
      var shared := usersService.shared;
      if score < 1 || score > 5 {
        return BadRequest;
      }
      if trip !in shared.rides.trips {
        return NotFound;
      }
      var row := shared.rides.trips[trip];
      if row.status != TripCompleted {
        return Forbidden;
      }
      var to;
      if from == row.riderId {
        to := row.driverId;
      } else if from == row.driverId {
        to := row.riderId;
      } else {
        return Forbidden;
      }
      if AlreadyRated(shared.ratings, trip, from, to) {
        return Conflict;
      }
      shared.ratings := shared.ratings + [Rating(trip, from, to, score)];
      usersService.RecalculateRating(to);
      return Ok;
    }
  }
}
