# Verified model of the ride-hailing backend

A Dafny model of the backend's business rules and proofs about them. Prisma's
tables, the BullMQ expiry queue, Redis and the document store are maps; each
service call is a function on them, and each service is also a class whose
methods write the tables statement by statement and are proved equal to that
function, reply and whole new state.

Two granularities are used, and every main lemma says which one it is about.

- **Level A**: a call, with its route guard, is one step. Runs are any sequence
  of steps from an empty system.
- **Level B**: each database read, each transaction, each storage, queue or
  Redis operation is a step. Any number of calls are in flight, any other call
  may run between two steps of one, and a call may die anywhere. Writes use
  what the call read earlier. A transaction takes effect as a whole, or not at
  all when a primary key or a unique index of the schema refuses a row.

Level B loses some of what Level A keeps. For each of these a lemma exhibits a
run that loses it, and another says, as an if-and-only-if, exactly which steps,
and so which runs, do:

| lost at Level B | run that loses it | exact condition |
|---|---|---|
| the coupling of rides, offers and trips | `RideInterleaving.CouplingCanBreak` | `RideInterleaving.RunIsSoundIffIntact` |
| a job for each PENDING offer | `RideInterleaving.PendingOfferCanLackItsJob`, `RideCalm.AcceptCanRemoveANewJob`, `RideCalm.HeldJobBlocksANewOne` | `RideJobs.RunIsCoveredIff` |
| the drivers an accept or a cancellation tells | `RideCalm.AcceptCanTurnAwayInSilence`, `RideCalm.CancelCanTurnAwayInSilence` | `RideAnnouncements.AcceptAnnouncesIff`, `RideAnnouncements.CancelAnnouncesIff` |
| fares agreed at the driver's latest | `RideFares.FareCanBeStale` | `RideFares.RunAgreesIff` |
| the authority chain | `OnboardingChain.SwitchesCanCross`, `OnboardingInterleaving.ProfileCanOutliveVerified` | `OnboardingChain.RunIsChainedIff`, `OnboardingGuard.RunIsGuardedIff` |
| single use and lineage of tokens, single use and newness of codes | `SessionSoundness.TokenCanRotateTwice`, `TokenCanOutliveReset`, `ResetCanBeSuperseded`, `CodeCanServeTwice` | `SessionSoundness.RunIsSoundIff` |
| sessions opened with the password in force | `SessionKeys.OldPasswordCanOpen` | `SessionKeys.RunIsFittingIff` |
| cleanups that no call notices | `SessionSoundness.RefreshCanThrow` | `SessionSoundness.CleanupShowsIffExpired` |

Of the other Level A results nothing is said at Level B unless a row below says
so: among them the due times of jobs, the exact set of stored files, drivers on
their own rides, ratings, and that the plate test makes the unique index idle.

| file | contents |
|---|---|
| `Common.dfy` | options and replies |
| `RideModel.dfy` | tables, reads, transactions and calls of the negotiation |
| `RideInvariant.dfy` | the coupling of rides, offers and trips; progress; announcements |
| `RideCalls.dfy` | what each call answers and does to every row; who may move a ride |
| `RideTiming.dfy` | expiry jobs, their delivery, and how long an offer stays PENDING |
| `RideInterleaving.dfy` | Level B of the negotiation |
| `RideJobs.dfy` | Level B of the expiry jobs: which events leave a PENDING offer that nothing will expire |
| `RideAnnouncements.dfy` | Level B of the announcements: when the drivers told are those turned away |
| `RideCalm.dfy` | runs in which nothing dies or fails, and what they can still lose |
| `RideFares.dfy` | fares on offers and trips are the latest submitted; at Level B exactly when |
| `RidePeople.dfy` | the people on rows; exactly when a driver is their own rider |
| `RideServices.dfy` | its services as classes |
| `Ratings.dfy` | ratings and mean scores on top of the negotiation, and their services |
| `Documents.dfy` | driver documents, both levels, and their service |
| `IdentityCache.dfy` | the cache-aside layer and the identity lookup |
| `Onboarding.dfy` | applications, review, profiles, modes, online flag |
| `OnboardingInvariant.dfy` | what every Level A run keeps |
| `OnboardingCalls.dfy` | what each call answers and does to every row; who may move an application |
| `OnboardingInterleaving.dfy` | Level B of onboarding and of mode and online switches |
| `OnboardingChain.dfy` | which Level B events keep the authority chain |
| `OnboardingGuard.dfy` | the same, with drivers on their way out of driver mode allowed for |
| `OnboardingServices.dfy` | its services as classes |
| `RateLimiter.dfy` | the sliding-window limiter against its whole history |
| `RateLimiterClock.dfy` | what it forgets when the clock goes back, and exactly when that shows |
| `Sessions.dfy` | sign-in, rotation, reset and cleanup; session lineage |
| `SessionCalls.dfy` | what each call answers and does to every row |
| `SessionEffects.dfy` | what a call means for later calls; cleanup |
| `SessionInterleaving.dfy` | Level B of sign-ins, refreshes and resets |
| `SessionSoundness.dfy` | which Level B events keep what Level A promises of tokens and codes; cleanups |
| `SessionKeys.dfy` | which Level B events open sessions with a password no longer in force |
| `SessionServices.dfy` | the authentication services as classes |

`dafny verify dfyconfig.toml` verifies the project.

Modelling conventions:

- Offer rows are named by their (ride, driver profile) pair: the pair is unique
  (`prisma/schema.prisma:257`), rows are upserted through it and never deleted.
- A unique index is a map kept beside its table, and `Schema` says it lists
  exactly the rows, and the foreign keys among rides, offers, profiles and trips
  hold; `RidePeople.UsersKnown` has the foreign keys to users.
- UUIDs and random tokens are fresh values. In sessions the n-th value drawn is
  n. Hashes stand for what they hash. Six-digit reset codes are not fresh.
- Logs (`log`, `issued`, `answers`) are history that no call reads.
- An expiry job waits, is held by a worker, or is finished. As in BullMQ, adding
  a job under an id that the queue still has is a no-op, and removing a job that
  a worker holds is refused; the code ignores the refusal. Finished jobs keep
  their ids, since no `removeOnComplete` or `removeOnFail` is set, and can be
  removed.
- At Level B a waiting job may be delivered at any time, due or not. Its worker
  holds it until a step of its own acknowledges it. A held job may return to the
  queue at any time, as after a failed attempt or a worker's death, and its
  attempts may run out at any time. At Level A a worker takes and finishes a job
  in one step.
- The job removals of one accept, which the code starts together, are one step,
  and so are a lookup of a job and its removal.
- Fares and ratings are `real`; times are integers of milliseconds.
- In the negotiation, steps of other services (`OtherStep`) may create any
  profile for a user without one and set any online flag, which covers all that
  onboarding can do.
- The repository's own README describes an older onboarding flow; the code is
  what is modelled.

## Model

| member | source | states |
|---|---|---|
| RideInvariant.EveryRunIsCoupled | src/offers/offers.service.ts:36-210 | Level A, every run: a PENDING ride has no trip and no ACCEPTED offer; a CANCELLED one has no trip or a CANCELLED one; MATCHED, IN_PROGRESS and COMPLETED rides have one trip, of the corresponding status, with the only ACCEPTED offer's driver and fare; no offer of a non-PENDING ride is PENDING |
| RideInvariant.CouplingMeans | prisma/schema.prisma:264 | The coupling, read off the tables without indexes: a ride has at most one trip, and a trip exactly in the statuses that call for one |
| RideInvariant.SoundIffIntact | src/offers/offers.service.ts:115-141 | From a coupled state a transaction of any service leaves every ride coupled and moved legally if and only if the ride is in a state the write fits: PENDING for an upsert; PENDING with the fare read, or a clash, for an accept; PENDING, CANCELLED, or MATCHED with its trip read, for a cancellation; MATCHED or IN_PROGRESS for a start; IN_PROGRESS or COMPLETED for a completion; any but an ACCEPTED offer for an expiry |
| RideInvariant.PerformKeepsSchema | prisma/schema.prisma:257-264 | Every transaction keeps the unique indexes and the foreign keys among rides, offers, profiles and trips, deletes no row and changes no owner or agreed fare |
| RideInvariant.SubmitIsSound | src/offers/offers.service.ts:36-83 | Level A: submitting an offer keeps the coupling and moves rides legally |
| RideInvariant.AcceptIsSound | src/offers/offers.service.ts:85-164 | Level A: accepting keeps the coupling across offers, ride and trip |
| RideInvariant.CancelIsSound | src/ride-requests/ride-requests.service.ts:82-132 | Level A: cancelling keeps the coupling across ride, offers and trip |
| RideInvariant.StartIsSound | src/trips/trips.service.ts:20-41 | Level A: start tests only the trip, yet succeeds only when the ride is MATCHED, and keeps the coupling |
| RideInvariant.CompleteIsSound | src/trips/trips.service.ts:43-64 | Level A: complete tests only the trip, yet succeeds only when the ride is IN_PROGRESS, and keeps the coupling |
| RideInvariant.ProcessIsSound | src/offers/offers.service.ts:171-210 | Level A: both expiry handlers keep the coupling |
| RideInvariant.RidesProgress | src/trips/trips.service.ts:20-64 | Level A: every status change raises a rank, so a ride changes status at most three times in any run |
| RideInvariant.EndsAreFinal | src/trips/trips.service.ts:20-64 | Level A: COMPLETED and CANCELLED are absorbing over every run |
| RideInvariant.AcceptAnnouncesItsEffect | src/offers/offers.service.ts:107-161 | Level A: the drivers announced as rejected are exactly those whose offers the bulk update flipped from PENDING to EXPIRED; the accepted driver is not among them; other rides' offers are unchanged |
| RideInvariant.CancelAnnouncesItsEffect | src/ride-requests/ride-requests.service.ts:99-129 | Level A: the drivers told of a cancellation are exactly those whose offers it flipped to EXPIRED; other rides' offers are unchanged |
| RideInvariant.AnnouncedMayView | src/ride-requests/ride-requests.service.ts:137-164 | Level A: after an accept its rider and the rejected drivers may still view the ride; the accepted driver may cancel it, a rejected one may not |
| RideInvariant.AcceptSucceedsIff | src/offers/offers.service.ts:85-141 | Level A: with a fresh trip id an accept succeeds if and only if the offer and its ride are PENDING and the ride is the caller's; it never meets the unique index, and a refusal changes nothing |
| RideInvariant.TripCallsSucceedIff | src/trips/trips.service.ts:20-64 | Level A: though they test only the trip, its driver can start it if and only if its ride is MATCHED, and complete it if and only if its ride is IN_PROGRESS |
| RideInvariant.StartThenComplete | src/trips/trips.service.ts:20-64 | Level A: a started trip can be completed at once, and not started again |
| RideCalls.StartSucceedsIff | src/trips/trips.service.ts:20-41 | For every user and trip: start succeeds if and only if the user is in driver mode with a profile and is the driver of the trip, which is MATCHED; which refusal comes otherwise, without effect; on success trip and ride change status and nothing else does |
| RideCalls.CompleteSucceedsIff | src/trips/trips.service.ts:43-75 | The same of complete, for a STARTED trip |
| RideCalls.SubmitSucceedsIff | src/offers/offers.service.ts:36-58 | An offer is taken if and only if the driver has a profile and the ride is PENDING; which refusal comes otherwise, without effect |
| RideCalls.SubmitEffect | src/offers/offers.service.ts:60-82 | The driver's one offer on the ride is then PENDING at the fare given, new or not, and no other row has changed; the ride's rider is told |
| RideCalls.SubmitSchedules | src/offers/offers.service.ts:225-237 | Its job falls due OFFER_EXPIRY_SECONDS from now, whatever job it had, unless a worker holds that |
| RideCalls.AcceptRepliesIff | src/offers/offers.service.ts:85-141 | An accept succeeds if and only if the offer and its ride are PENDING, the ride is the caller's, and no trip row is in the way; which refusal comes otherwise, without effect |
| RideCalls.AcceptEffect | src/offers/offers.service.ts:115-141 | The offer is ACCEPTED, the ride's other PENDING offers EXPIRED, the ride MATCHED, and the trip carries ride, driver, rider and the fare of the offer; no other row changes |
| RideCalls.AcceptUnschedules | src/offers/offers.service.ts:143-147 | Of each job: it is gone if and only if it was of one of these offers and no worker holds it |
| RideCalls.AcceptTells | src/offers/offers.service.ts:149-161 | The announcement names exactly the drivers with another PENDING offer on the ride |
| RideCalls.CreateEffect | src/ride-requests/ride-requests.service.ts:39-48 | A user in rider mode creates a PENDING ride with the fare suggested; anyone else, or a taken id, changes nothing |
| RideCalls.CancelSucceedsIff | src/ride-requests/ride-requests.service.ts:82-97 | A cancellation succeeds if and only if the ride is PENDING or MATCHED and the user is its rider or the driver on a trip row of it; which refusal comes otherwise, without effect |
| RideCalls.CancelEffect | src/ride-requests/ride-requests.service.ts:103-115 | The ride is CANCELLED with the reason given, an absent one leaving what is on file, and its PENDING offers EXPIRED; no other ride or offer changes |
| RideCalls.CancelEndsTrip | src/ride-requests/ride-requests.service.ts:115-124 | Its trip is CANCELLED with the same reason; no other trip changes |
| RideCalls.CancelTells | src/ride-requests/ride-requests.service.ts:99-129 | The drivers told are exactly those with a PENDING offer on the ride; the queue stays |
| RideCalls.ViewIff | src/ride-requests/ride-requests.service.ts:137-153 | A ride may be viewed by its rider, by whoever has offered on it and by the driver on its trip row, and by no one else |
| RideCalls.OfferJobEffect | src/offers/offers.service.ts:171-189 | A due job expires its offer, and tells its driver, if and only if it is PENDING; the job is done either way |
| RideCalls.DriverJobEffect | src/offers/offers.service.ts:196-210 | A due driver job expires exactly the PENDING offers of its driver, if that driver is off line, and tells no one |
| RideCalls.DisconnectEffect | src/drivers/drivers.service.ts:110-127 | A disconnect takes the driver off line and adds a driver job due OFFER_EXPIRY_SECONDS later, unless the queue has its id |
| RideCalls.RideMovesIff | src/trips/trips.service.ts:20-75 | Level A, in every coupled state: a step changes the status of a ride if and only if it is its rider accepting a PENDING offer on it while it is PENDING, its rider or its trip's driver cancelling it while it is PENDING or MATCHED, or its trip's driver, in driver mode with a profile, starting it while MATCHED or completing it while IN_PROGRESS |
| RideFares.FaresAreLatest | src/offers/offers.service.ts:60-74 | Level A, every run: an offer is on file exactly when it was submitted, at the fare of its latest submission, and a trip's agreed fare is that of its driver's latest submission for its ride |
| RideFares.FaresAreLatestInterleaved | src/offers/offers.service.ts:60-74 | Level B, every interleaving: the same of offers |
| RideFares.AgreesIffLatest | src/offers/offers.service.ts:132-140 | Level B, every interleaving: a trip's fare is its driver's latest if and only if it is the one on the row of the driver's offer |
| RideFares.FaresAgreeIff | src/offers/offers.service.ts:132-140 | Level B: an event keeps that of every trip if and only if an accept that commits has read the fare on the row, and an upsert of an offer behind a trip is at the trip's fare |
| RideFares.RunAgreesIff | src/offers/offers.service.ts:85-141 | Level B, every run from the empty system: so throughout if and only if every event meets that condition |
| RideFares.FareCanBeStale | src/offers/offers.service.ts:85-141 | Level B witness, nothing dying or failing: an accept agrees on a fare that its driver has replaced since it was read |
| RideTiming.PendingOffersAreTimed | src/offers/offers.service.ts:225-244 | Level A, every run: a PENDING offer has its expire job waiting, due exactly OFFER_EXPIRY_SECONDS after its latest submission |
| RideTiming.NoOfferOutstays | src/offers/offers.service.ts:225-237 | Level A: if due jobs run before time passes them, no offer is PENDING beyond that bound |
| RideTiming.ExpiryEventsArePaid | src/offers/offer-expiry.processor.ts:30-59 | Level A, every run: an offer is reported expired at most once per submission |
| RideTiming.DriverJobRunsOnce | src/offers/offers.service.ts:212-223 | Level A: once a driver's disconnect job has run, its id stays with the queue, so in whatever follows no later disconnect of that driver is scheduled again |
| RideTiming.DeliveryExpiresDoomed | src/offers/offers.service.ts:171-210 | Delivering any list of expiry jobs expires exactly the pending offers they are about: named ones, and those of drivers who are away |
| RideTiming.DeliveryOrderIsIrrelevant | src/offers/offers.service.ts:171-210 | Any order and repetition of the same jobs leaves the same tables, and changes PENDING offers only |
| RideTiming.AtMostOneExpiryEvent | src/offers/offer-expiry.processor.ts:34-47 | However often jobs are delivered, a pending period ends in at most one event |
| RideInterleaving.AcceptIsUnique | src/offers/offers.service.ts:85-141 | Level B, every interleaving: a ride has at most one committed accept and one trip, and at most one offer was ever set ACCEPTED |
| RideInterleaving.AcceptedOfferHasItsTrip | src/offers/offers.service.ts:115-141 | Level B: an ACCEPTED offer has a trip carrying that offer's driver and that ride's rider |
| RideInterleaving.AgreedFareWasSubmitted | src/offers/offers.service.ts:85-141 | Level B: a trip's agreed fare is one its driver had submitted for its ride |
| RideInterleaving.AloneIsAtOnce | src/offers/offers.service.ts:36-164 | Level B refines to Level A: a call nothing interferes with, or a worker with its job, ends in the state of its single step |
| RideInterleaving.ResumeIsSoundIffIntact | src/trips/trips.service.ts:22-36 | Level B: the next step of a call in flight is sound if and only if its transaction, if it makes one, fits the ride as it is then |
| RideInterleaving.RunIsSoundIffIntact | src/offers/offers.service.ts:85-141 | Level B: a run stays coupled, by legal moves, throughout if and only if every transaction of it fits its ride when it is made |
| RideInterleaving.IntactRunIsCoupled | src/offers/offers.service.ts:85-141 | Level B: such runs end in the whole coupling of Level A |
| RideInterleaving.CouplingCanBreak | src/ride-requests/ride-requests.service.ts:103-124 | Level B witness: a cancellation that read before an accept and commits after it leaves a CANCELLED ride with a MATCHED trip |
| RideInterleaving.PendingOfferCanLackItsJob | src/offers/offers.service.ts:57-76 | Level B witness: a submission that dies between its upsert and its scheduling leaves a PENDING offer without a job |
| RideJobs.CoverIff | src/offers/offers.service.ts:225-244 | Level B: after an event every PENDING offer still has its job waiting, left by a worker that is gone, about to be scheduled or in a worker's hands, if and only if: for an accept removing jobs, each PENDING offer among them has a job left so or another scheduler or expiry in flight; for a submission adding its job while the queue still has the old one, the same or the old one waiting; for a dying scheduler or expiry, likewise; for a job out of attempts, a scheduler or expiry in flight; any other event always keeps it |
| RideJobs.RunIsCoveredIff | src/offers/offers.service.ts:225-244 | Level B, every run from the empty system, failed attempts included: PENDING offers are covered throughout if and only if every event meets that condition |
| RideCalm.AcceptCanRemoveANewJob | src/offers/offers.service.ts:143-147 | Level B witness, nothing dying or failing: an accept removes the new job of an offer resubmitted after its read, and the offer stays PENDING with no job and no call in flight |
| RideCalm.HeldJobBlocksANewOne | src/offers/offers.service.ts:225-244 | Level B witness, nothing dying or failing: an offer expired by a disconnect is resubmitted while a worker still holds its old job, which is neither removed nor replaced; the offer stays PENDING with no job waiting or held and no call in flight |
| RideAnnouncements.AcceptAnnouncesIff | src/offers/offers.service.ts:107-161 | Level B, whatever happens between an accept's commit and its announcement: the drivers announced as rejected are those whose offers the commit expired, if and only if the offers it read are the ride's other PENDING offers when it commits |
| RideAnnouncements.CancelAnnouncesIff | src/ride-requests/ride-requests.service.ts:82-132 | Level B, whatever happens between a cancellation's read and its commit: the drivers told are those whose offers the commit expired, if and only if the ride's PENDING offers are those it read |
| RideCalm.AcceptCanTurnAwayInSilence | src/offers/offers.service.ts:107-161 | Level B witness, nothing dying or failing: an offer that lands between an accept's read and its commit is turned away and its driver not announced |
| RideCalm.CancelCanTurnAwayInSilence | src/ride-requests/ride-requests.service.ts:82-132 | Level B witness, the same of a cancellation |
| RidePeople.NoSelfOffersIff | src/offers/offers.service.ts:36-74 | Level A: no offer is a driver's on their own ride after a step, if and only if the step is not a submission by a driver on their own PENDING ride |
| RidePeople.AlwaysOthersIff | src/offers/offers.service.ts:36-74 | Level A: so throughout a run, if and only if no step is such a submission |
| RidePeople.OthersDrive | src/offers/offers.service.ts:115-141 | Then nobody drives their own trip |
| RidePeople.SelfDrivenIff | src/offers/offers.service.ts:115-141 | An accept makes a trip with driver and rider the same if and only if the accepted offer is the rider's own |
| RidePeople.OneCanDriveOneself | src/offers/offers.service.ts:36-74 | Level A witness: submitOffer does not compare driver and rider, so a user can drive their own trip |
| RidePeople.RunKeepsUsersKnown | prisma/schema.prisma:262-281 | Level A, every run: riders, profile owners and the people on trips are users |
| RidePeople.CallIsAWrite | src/trips/trips.service.ts:20-64 | A call's whole effect on the tables is at most one transaction |
| RideServices.OffersService.SubmitOffer | src/offers/offers.service.ts:36-83 | The method is the step SubmitOffer: checks in order, upsert, job replaced, event |
| RideServices.OffersService.AcceptOffer | src/offers/offers.service.ts:85-164 | The method is the step AcceptOffer, with every error reply |
| RideServices.OffersService.TransactAccept | src/offers/offers.service.ts:115-141 | The four writes happen together, or none when the trip row clashes |
| RideServices.OffersService.CancelScheduledExpiries | src/offers/offers.service.ts:143-147 | The loop removes exactly the jobs of the given offers, waiting or finished, that no worker holds |
| RideServices.OffersService.ScheduleExpiry | src/offers/offers.service.ts:225-237 | An offer's job is replaced by one due a full term from now, unless a worker holds it: then nothing changes |
| RideServices.OffersService.ScheduleDriverOfferExpiry | src/offers/offers.service.ts:212-223 | A driver's job is added unless the queue has its id, waiting, held or finished |
| RideServices.OffersService.ExpireIfStillPending | src/offers/offers.service.ts:171-189 | Expires the offer and names its driver if and only if it is PENDING |
| RideServices.OffersService.ExpireAllPendingOffersForDriver | src/offers/offers.service.ts:196-210 | Expires the PENDING offers of a driver who exists and is off line, and nothing else |
| RideServices.OfferExpiryProcessor.Process | src/offers/offer-expiry.processor.ts:30-59 | Dispatches by job kind; an event only for an offer it expired |
| RideServices.RideRequestsService.Create | src/ride-requests/ride-requests.service.ts:39-48 | Inserts a PENDING ride |
| RideServices.RideRequestsService.FindOneForUser | src/ride-requests/ride-requests.service.ts:70-80 | Ok exactly for the owner, an offering driver or the trip's driver |
| RideServices.RideRequestsService.Cancel | src/ride-requests/ride-requests.service.ts:82-132 | The method is the step CancelRide, with every error reply |
| RideServices.TripsService.Start | src/trips/trips.service.ts:20-41 | The guarded route is the step StartTrip, with every error reply |
| RideServices.TripsService.Complete | src/trips/trips.service.ts:43-64 | The guarded route is the step CompleteTrip, with every error reply |
| RideServices.TripsService.FindOwnedByDriver | src/trips/trips.service.ts:66-75 | Guard, existence, ownership and status tests, in the order of the source |
| Ratings.RatingIsMean | src/users/users.service.ts:58-67 | Level A, every run: each user's stored rating is the mean of the scores received, or 5.0 with none, and lies in [1, 5] |
| Ratings.AtMostTwoRatings | prisma/schema.prisma:297 | Level A, every run: a trip has at most two ratings, by different participants |
| Ratings.RatedTripsStayCompleted | src/ratings/ratings.service.ts:26-39 | Level A, every run: a rating stays, goes from one seat of its trip to the other, and its trip is and stays COMPLETED |
| Ratings.RatedIffAllowed | src/ratings/ratings.service.ts:20-62 | A rating succeeds if and only if the score is 1 to 5, the trip is COMPLETED, the author took part and has not rated it; a refusal changes nothing |
| Ratings.RatingRefusals | src/ratings/ratings.service.ts:20-62 | Which refusal a rating gets otherwise |
| Ratings.RateEffect | src/ratings/ratings.service.ts:40-50 | On success one row is added, with the score given, from its author to the other seat; that user's scores gain exactly this one and the mean follows; no one else's scores or rating change |
| Ratings.CompletedStays | src/trips/trips.service.ts:43-64 | Level A: a COMPLETED trip keeps its status, people and fare through every sound step |
| RatingServices.RatingsService.RateTrip | src/ratings/ratings.service.ts:20-62 | The method is the step RateTrip, with every error reply |
| RatingServices.UsersService.Aggregate | src/users/users.service.ts:59-62 | Going through the rows one by one gives the sum and the number of the scores the user received |
| RatingServices.UsersService.RecalculateRating | src/users/users.service.ts:58-67 | Whatever was stored, the user's rating is then the mean of the scores received, or 5.0 with none; if every other user's rating was theirs, all are again |
| Documents.UploadKeepsExact | src/drivers/driver-documents.service.ts:42-86 | Level A: while deletes succeed, stored keys equal row keys exactly |
| Documents.UploadsAreExactIff | src/drivers/driver-documents.service.ts:42-86 | Level A, every run of uploads: rows resolve, and at its end stored keys equal row keys exactly, if and only if no upload that replaced a file failed to delete it |
| Documents.LeftoverIffDeleteFailed | src/drivers/driver-documents.service.ts:79-83 | Level A: a file is left over if and only if an upload replaces one and the delete fails; rows resolve either way |
| Documents.UploadSucceedsIff | src/drivers/driver-documents.service.ts:42-51 | An upload is taken if and only if the file is JPEG, PNG or PDF; a refusal has no effect |
| Documents.GetRepliesIff | src/drivers/driver-documents.service.ts:110-125 | Reading tells a missing row from a missing file, and otherwise gives the bytes with the row's type and name |
| Documents.UploadThenGet | src/drivers/driver-documents.service.ts:100-125 | Level A: what was uploaded is what is read back; other documents are as before; the uploaded types gain exactly this one |
| Documents.RowsAlwaysResolve | src/drivers/driver-documents.service.ts:53-83 | Level B: through any interleaving, crash or torn write, every row reads back as one whole file uploaded for it |
| Documents.DeletesTargetReplacedKeys | src/drivers/driver-documents.service.ts:79-83 | Level B: a delete never targets a key that a row has or an upload may still give one |
| Documents.RowsStay | src/drivers/driver-documents.service.ts:56-77 | Level B: rows are only added or replaced |
| Documents.AloneIsAtOnce | src/drivers/driver-documents.service.ts:42-86 | Level B refines to Level A for an upload nothing interferes with |
| DocumentService.DriverDocumentsService.Upload | src/drivers/driver-documents.service.ts:42-86 | The method, against storage and table, is the step Upload |
| DocumentService.DriverDocumentsService.GetFileBuffer | src/drivers/driver-documents.service.ts:110-125 | Returns the row's file with its type and name, or tells a missing row from a file the storage cannot read |
| CacheModel.StoredNullIsAMiss | src/common/cache/cache.service.ts:20-35 | Reading back what was stored gives the value; only a stored value is a hit |
| CacheModel.CacheService.GetCached | src/common/cache/cache.service.ts:20-31 | Absent, malformed and null entries are misses |
| CacheModel.CacheService.GetOrSet | src/common/cache/cache.service.ts:46-57 | A hit leaves the store alone; a miss stores and returns the computed value, which then reads back; a factory that rejects is passed on and nothing is stored |
| IdentityCache.CacheIsTransparent | src/drivers/drivers.service.ts:50-60 | Level B, any interleaving of get, read, set, eviction and approval: a hit equals what the database holds then, a miss what it held at the call's own read; absence is never served from cache, and only if the database held nothing when the call began |
| IdentityCache.MissThenLookup | src/drivers/drivers.service.ts:50-60 | What a miss found is a hit for the next lookup of the user; that it found nothing is a miss again |
| OnboardingInvariant.AuthorityChain | src/users/users.service.ts:26-48 | Level A, every run: on line implies driver mode implies a profile, which exists exactly while the user's application is VERIFIED, which implies a stored licence, vehicle registration and vehicle photo |
| OnboardingInvariant.ChainIffIntact | src/driver-application/driver-application.service.ts:249-264 | From a state with that chain, a write keeps it if and only if the application is in a state the write fits: the database refuses it, or it creates, or the application is not VERIFIED and, for a vehicle or an approval, has all required documents |
| OnboardingInvariant.ModeKeepsChain | src/users/users.service.ts:26-52 | Level A: a mode switch keeps the chain, and succeeds exactly for a known user who, for driver mode, has a profile |
| OnboardingInvariant.OnlineKeepsChain | src/drivers/drivers.service.ts:62-84 | Level A: behind its guard the online switch always finds the profile, sets just its flag and keeps the chain |
| OnboardingInvariant.GoOfflineWorks | src/drivers/drivers.service.ts:110-127 | goOffline never misses a profile: the user's is off line afterwards and no other changed |
| OnboardingInvariant.LookupIsExact | src/drivers/drivers.service.ts:50-60 | With a sound cache the lookup returns what the database holds and keeps the cache sound |
| OnboardingInvariant.ApplyMovesWell | src/driver-application/driver-application.service.ts:57-266 | Level A: applications stay, keep their owner and move only by the rules: out of review by a verdict, out of rejection by a restart, out of VERIFIED never |
| OnboardingInvariant.VerifiedIsFinal | src/driver-application/driver-application.service.ts:249-264 | Level A, every run: a verified applicant stays verified, with the same profile |
| OnboardingInvariant.ReviewSucceedsIff | src/driver-application/driver-application.service.ts:229-266 | Level A: with a fresh profile id a verdict succeeds if and only if the application is under review; it never meets a unique index, a refusal changes nothing, and a second verdict is a conflict |
| OnboardingInvariant.CallIsAWrite | src/driver-application/driver-application.service.ts:97-193 | A call's whole effect is its uploads followed by at most one write |
| OnboardingInvariant.PlatesAreUnique | prisma/schema.prisma:159 | Level A, every run: no two applications hold the same plate |
| OnboardingInvariant.PlateCheckSuffices | src/driver-application/driver-application.service.ts:307-318 | A taken plate is refused with a conflict and no effect; a submission that passes never meets the unique index |
| OnboardingInvariant.UploadReplies | src/driver-application/driver-application.service.ts:144-150 | The uploads succeed exactly when every file is JPEG, PNG or PDF, and then all are stored; nothing but these files is stored either way |
| OnboardingInvariant.VehicleSucceedsIff | src/driver-application/driver-application.service.ts:136-175 | A vehicle submission succeeds if and only if the user has an application in one of the four editable statuses, no other application holds the plate, every file is JPEG, PNG or PDF, and each of licence, registration and vehicle photo is stored or among the files; otherwise no application changes |
| OnboardingInvariant.InformedIff | src/driver-application/driver-application.service.ts:289-305 | Level A: under review implies personal information after a step, if and only if the step is not a successful vehicle submission of an application without any |
| OnboardingInvariant.AlwaysInformedIff | src/driver-application/driver-application.service.ts:289-305 | Level A, every run: so throughout, if and only if no step is such a submission |
| OnboardingInvariant.ReviewWithoutPersonalInfo | src/driver-application/driver-application.service.ts:289-305 | Level A witness: the steps have no order, so an application can be under review with no personal information |
| OnboardingCalls.StartRepliesIff | src/driver-application/driver-application.service.ts:57-95 | Starting is a conflict if and only if the user's application is under review or verified; the other refusals; none has an effect |
| OnboardingCalls.FirstStart | src/driver-application/driver-application.service.ts:62-67 | A first start creates one blank application and nothing else |
| OnboardingCalls.LaterStart | src/driver-application/driver-application.service.ts:78-94 | A start after a rejection clears status and reason and keeps what was submitted; any other changes nothing |
| OnboardingCalls.PersonalInfoRepliesIff | src/driver-application/driver-application.service.ts:289-305 | Personal information is taken if and only if the user's application is NOT_STARTED, PERSONAL_INFO_SUBMITTED, LICENSE_SUBMITTED or VEHICLE_SUBMITTED; which refusal comes otherwise, without effect |
| OnboardingCalls.PersonalInfoEffect | src/driver-application/driver-application.service.ts:97-109 | It goes on file with its status; all else stays |
| OnboardingCalls.LicenseRepliesIff | src/driver-application/driver-application.service.ts:111-134 | A licence is taken in the same statuses, with a JPEG, PNG or PDF file; which refusal comes otherwise, without effect |
| OnboardingCalls.LicenseEffect | src/driver-application/driver-application.service.ts:111-134 | Number and document go on file with the status; all else stays |
| OnboardingCalls.VehicleRefusals | src/driver-application/driver-application.service.ts:136-159 | Which refusal a vehicle gets; no application, a status that is not editable and a taken plate leave no trace, the others at most documents |
| OnboardingCalls.VehicleEffectOn | src/driver-application/driver-application.service.ts:144-174 | A vehicle that is taken goes on file with exactly its documents, the application under review; no other application changes |
| OnboardingCalls.OptionalRepliesIff | src/driver-application/driver-application.service.ts:181-193 | Proof of insurance and a profile photo, and no other document, are taken at any status of an application, and just stored |
| OnboardingCalls.ReviewRefusals | src/driver-application/driver-application.service.ts:229-236 | A verdict is a conflict on any application that is not under review |
| OnboardingCalls.RejectionEffect | src/driver-application/driver-application.service.ts:238-247 | A rejection puts its reason on file and keeps what was submitted |
| OnboardingCalls.ApprovalEffect | src/driver-application/driver-application.service.ts:249-265 | An approval clears the reason, keeps what was submitted and creates the applicant's profile, off line |
| OnboardingCalls.SwitchEffect | src/users/users.service.ts:26-52 | A mode switch with its refusals: the user's mode is set, and rider mode lowers the user's own online flag and no other |
| OnboardingCalls.OnlineEffect | src/drivers/drivers.service.ts:62-84 | The online switch succeeds if and only if the user is in driver mode with a profile, and sets that profile's flag as asked |
| OnboardingCalls.StatusMovesIff | src/driver-application/driver-application.service.ts:57-266 | Level A, in every state of every run: a step takes an application to another status if and only if it is its applicant restarting after a rejection or submitting a step that is taken, or a verdict on it while it is under review |
| OnboardingInterleaving.DocumentsPrecedeReview | src/driver-application/driver-application.service.ts:152-173 | Level B: an application under review, verified or behind a profile has a stored licence, vehicle registration and vehicle photo; a verified one has its profile |
| OnboardingInterleaving.OneProfile | prisma/schema.prisma:182-183 | Level B: concurrent approvals create at most one profile per application and per user |
| OnboardingInterleaving.DriverModeHasProfile | src/users/users.service.ts:26-52 | Level B, every interleaving: driver mode implies a profile, and a cached identity is the database's |
| OnboardingInterleaving.AloneIsAtOnce | src/driver-application/driver-application.service.ts:57-266 | Level B refines to Level A for a call nothing interferes with, mode and online switches included |
| OnboardingInterleaving.AtomicRunsAreRuns | src/driver-application/driver-application.service.ts:57-266 | Every run of Level A is a run of Level B |
| OnboardingChain.ChainIff | src/users/users.service.ts:26-52 | Level B: an event keeps the authority chain if and only if an application write fits the application, an online flag is raised in driver mode, and a switch to rider mode finds the driver off line |
| OnboardingChain.RunIsChainedIff | src/drivers/drivers.service.ts:62-84 | Level B, every run from the empty system: the chain holds throughout if and only if every event meets that condition |
| OnboardingGuard.GuardIff | src/users/users.service.ts:39-49 | Level B: on line implies driver mode or a call in flight that will take the driver off line, and the rest of the chain holds; an event keeps that if and only if an application write fits the application, an online flag is raised in driver mode or with such a call in flight, and the last such call of a driver on line in rider mode does not die. An ordinary switch to rider mode always keeps it |
| OnboardingGuard.RunIsGuardedIff | src/users/users.service.ts:26-52 | Level B, every run from the empty system: so throughout if and only if every event meets that condition |
| OnboardingGuard.GuardedRunIsChained | src/drivers/drivers.service.ts:110-127 | Level B: such a run has the whole authority chain whenever no such call is in flight |
| OnboardingChain.SwitchesCanCross | src/users/users.service.ts:39-49 | Level B witness without any crash: an online switch past its guard, crossed by a whole switch to rider mode, leaves a driver on line in rider mode |
| OnboardingInterleaving.ProfileCanOutliveVerified | src/driver-application/driver-application.service.ts:97-109 | Level B witness: a submission that read before an approval and writes after it takes VERIFIED away and leaves the profile |
| OnboardingServices.DriverApplicationService.Start | src/driver-application/driver-application.service.ts:57-95 | The method is the step Start: create, restart, return or refuse |
| OnboardingServices.DriverApplicationService.LoadEditable | src/driver-application/driver-application.service.ts:289-305 | Passes exactly an application that is neither submitted nor rejected |
| OnboardingServices.DriverApplicationService.SubmitPersonalInfo | src/driver-application/driver-application.service.ts:97-109 | The method is the step SubmitPersonalInfo |
| OnboardingServices.DriverApplicationService.SubmitLicense | src/driver-application/driver-application.service.ts:111-134 | The method is the step SubmitLicense; the upload lands before the status |
| OnboardingServices.DriverApplicationService.UploadFiles | src/driver-application/driver-application.service.ts:144-150 | The upload loop stores files in order up to the first unsupported one |
| OnboardingServices.DriverApplicationService.SubmitVehicle | src/driver-application/driver-application.service.ts:136-175 | The method is the step SubmitVehicle: plate test, uploads, completeness, write |
| OnboardingServices.DriverApplicationService.UploadOptionalDocument | src/driver-application/driver-application.service.ts:181-193 | The method is the step UploadOptional |
| OnboardingServices.DriverApplicationService.Review | src/driver-application/driver-application.service.ts:229-266 | The method is the step Review |
| OnboardingServices.DriverApplicationService.Approve | src/driver-application/driver-application.service.ts:249-264 | Status and profile are written together, or neither when a row clashes |
| OnboardingServices.DriversService.FindIdentityByUserId | src/drivers/drivers.service.ts:50-60 | The method is the cached lookup FindIdentity |
| OnboardingServices.DriversService.SetOnlineStatus | src/drivers/drivers.service.ts:62-84 | The guarded route is the step SetOnlineStatus |
| OnboardingServices.DriversService.GoOffline | src/drivers/drivers.service.ts:110-127 | The method is the step GoOffline, apart from the job it schedules |
| OnboardingServices.UsersService.SetActiveProfile | src/users/users.service.ts:26-52 | The method is the step SetActiveProfile |
| RateLimiter.PruningIsUnobservable | src/realtime/ws-rate-limiter.ts:17-32 | On a clock that does not go back, the pruned lists give the same answers as a reference that keeps every acceptance, for every run of calls and clears |
| RateLimiterClock.AnswerDiffersIff | src/realtime/ws-rate-limiter.ts:18-24 | One call on any clock: its answer differs from the reference's if and only if the window holds limit acceptances but fewer that no later call of the key has read the clock a window or more past |
| RateLimiterClock.PruningShowsIffForgotten | src/realtime/ws-rate-limiter.ts:17-32 | Every run on any clock: the answers equal the reference's if and only if no call of the run is such a one |
| RateLimiterClock.MonotoneNeverForgets | src/realtime/ws-rate-limiter.ts:18-22 | On a clock that does not go back no call is |
| RateLimiter.BackwardClockIsObservable | src/realtime/ws-rate-limiter.ts:18-22 | Witness: on a clock that goes back they differ |
| RateLimiter.SpanIsBounded | src/realtime/ws-rate-limiter.ts:17-32 | Acceptances of a key that is not cleared: at most limit * (D / window + 1) in any span of D ms, and the (i + limit)-th comes at least a window after the i-th |
| RateLimiter.RefusedOnlyWhenFull | src/realtime/ws-rate-limiter.ts:24-32 | A call is refused if and only if limit acceptances lie in the window; afterwards the key's list is those in the window and this one if accepted; other keys are untouched |
| RateLimiter.ListsStayBounded | src/realtime/ws-rate-limiter.ts:20-36 | Over every run, on any clock, a stored list never exceeds the limit |
| RateLimiterService.WsRateLimiter.Consume | src/realtime/ws-rate-limiter.ts:17-32 | The method, filtering and pushing in place, is the step Limit |
| RateLimiterService.WsRateLimiter.Clear | src/realtime/ws-rate-limiter.ts:35-37 | Forgets one key |
| SessionInvariant.AcceptedTokensDescend | src/auth/auth.service.ts:66-87 | Level A, every run: a refresh token is accepted at most once, and every accepted one traces back through rotations to a sign-in of the same user after that user's latest password reset |
| SessionInvariant.DescendsFromSignIn | src/auth/auth.service.ts:132-167 | That lineage ends in a sign-in with no reset of the user's password in between |
| SessionInvariant.OnlyNewestCodesReset | src/auth/auth.service.ts:110-166 | Level A, every run: a code changes a password at most once, and only the latest one issued to its user does |
| SessionCalls.RegisterSucceedsIff | src/auth/auth.service.ts:35-52 | A number registers if and only if it is new; user and token are added and nothing else |
| SessionCalls.LoginSucceedsIff | src/auth/auth.service.ts:54-64 | A login succeeds if and only if the number is known and the password is the one on file; one token is added and nothing else |
| SessionCalls.SignInTokenWorks | src/auth/auth.service.ts:177-204 | The token a registration or login answers with is new and refreshes, for its user, until its lifetime is over and not after; other tokens are as before |
| SessionCalls.RefreshSucceedsIff | src/auth/auth.service.ts:66-87 | A refresh succeeds if and only if the token is on file, unrevoked and not past its expiry; a refusal has no effect |
| SessionCalls.RefreshEffect | src/auth/auth.service.ts:76-86 | It revokes that row, adds the next with a full lifetime, and leaves every other row |
| SessionCalls.LogoutEffect | src/auth/auth.service.ts:169-175 | A logout revokes that one row and is never refused |
| SessionCalls.ForgotEffect | src/auth/auth.service.ts:97-130 | A request is always answered alike; for a known number it uses up that user's codes and no other's and adds one with a full lifetime |
| SessionCalls.ResetSucceedsIff | src/auth/auth.service.ts:132-151 | A reset succeeds if and only if the user has this code on file, unused and short of its expiry; a refusal has no effect |
| SessionCalls.ResetEffect | src/auth/auth.service.ts:152-166 | It sets that user's password, uses up that code, revokes all that user's tokens, and leaves every other row |
| SessionCalls.CleanupEffect | src/maintenance/token-cleanup.service.ts:18-25 | A cleanup deletes exactly the rows past their expiry |
| SessionEffects.RefreshSwapsOne | src/auth/auth.service.ts:66-87 | A successful refresh swaps one live token of the user for another, so their number is unchanged, and touches no one else's |
| SessionEffects.RefreshThenRefresh | src/auth/auth.service.ts:72-86 | The old token is refused from then on; the new one works until its expiry and not after |
| SessionEffects.RefusalIsQuiet | src/auth/auth.service.ts:72-74 | A refused refresh changes nothing |
| SessionEffects.LogoutEndsOne | src/auth/auth.service.ts:169-175 | Logging out ends that session and no other |
| SessionEffects.ForgotReplaces | src/auth/auth.service.ts:110-124 | After a request, exactly its code works, until its expiry |
| SessionEffects.ResetEndsSessions | src/auth/auth.service.ts:152-166 | A reset leaves the user no live token and no unused code; exactly the new password signs in; other users are untouched |
| SessionEffects.OneUnused | src/auth/auth.service.ts:110-116 | Level A: at most one unused code per user |
| SessionCleanup.CleanupIsUnobservable | src/maintenance/token-cleanup.service.ts:18-25 | Level A: every call of every run is answered as if no cleanup had ever run |
| SessionCleanup.CleanupShowsIffClockGoesBack | src/maintenance/token-cleanup.service.ts:19-21 | At another clock reading the cleanup shows if and only if that reading still accepts an unrevoked token it deleted |
| SessionCleanup.ExpiryInstantIsValid | src/auth/auth.service.ts:72-74 | Both tests are strict: at its very expiry a token is spared and accepted |
| SessionInterleaving.OneUnusedCode | src/auth/auth.service.ts:110-166 | Level B, a reset's read and commit interleaved with requests: never two unused codes for a user |
| SessionInterleaving.ResetsUseOwnCodes | src/auth/auth.service.ts:138-166 | Level B: a password is only changed by a code issued to its own user, used up by then |
| SessionInterleaving.AloneIsAtOnce | src/auth/auth.service.ts:35-87 | Level B refines to Level A for a registration, login, refresh or reset nothing interferes with |
| SessionSoundness.SoundIff | src/auth/auth.service.ts:66-87 | Level B: tokens taken once, not after logout or reset, rotations that descend from a sign-in after the latest reset, and resets by the newest code, once, all survive an event if and only if a revocation finds its row unrevoked, an insertion comes before any reset since its revocation, and a reset commits with its code still unused |
| SessionSoundness.RunIsSoundIff | src/auth/auth.service.ts:132-167 | Level B, every run from the empty tables: all of that holds throughout if and only if every event meets that condition |
| SessionSoundness.TokenCanRotateTwice | src/auth/auth.service.ts:76-86 | Level B witness: two refreshes in flight both rotate one token |
| SessionSoundness.TokenCanOutliveReset | src/auth/auth.service.ts:76-86 | Level B witness: a refresh inserts its token after a reset that came since its revocation |
| SessionSoundness.ResetCanBeSuperseded | src/auth/auth.service.ts:138-166 | Level B witness: a reset commits after a newer request |
| SessionSoundness.CodeCanServeTwice | src/auth/auth.service.ts:138-166 | Level B witness: two resets in flight commit with one code |
| SessionSoundness.CleanupShowsIffExpired | src/maintenance/token-cleanup.service.ts:18-21 | Level B, whatever happens between a refresh's read and its update: the update throws if and only if some cleanup meanwhile read the clock past the token's expiry |
| SessionSoundness.RefreshCanThrow | src/maintenance/token-cleanup.service.ts:18-21 | Level B witness: a refresh read a valid token and its update finds the row swept away |
| SessionKeys.FittingIff | src/auth/auth.service.ts:54-64 | Level B: every session is opened with the password in force when its token is inserted; an event keeps that if and only if it is not a sign-in inserting its token after its user's password has changed from the one it compared |
| SessionKeys.RunIsFittingIff | src/auth/auth.service.ts:54-64 | Level B, every run from the empty tables: so of every session of the run if and only if every event meets that condition |
| SessionKeys.NewPasswordOpens | src/auth/auth.service.ts:132-167 | Then every session opened since a user's latest reset used the password that reset set |
| SessionKeys.OldPasswordCanOpen | src/auth/auth.service.ts:54-64 | Level B witness: a login that compared the old password before a reset inserts a live token after it |
| SessionServices.AuthService.Register | src/auth/auth.service.ts:35-52 | The method is the step Register |
| SessionServices.AuthService.Login | src/auth/auth.service.ts:54-64 | The method is the step Login |
| SessionServices.AuthService.Refresh | src/auth/auth.service.ts:66-87 | The method is the step Refresh |
| SessionServices.AuthService.Logout | src/auth/auth.service.ts:169-175 | The method is the step Logout |
| SessionServices.AuthService.ForgotPassword | src/auth/auth.service.ts:97-130 | The method is the step Forgot |
| SessionServices.AuthService.ResetPassword | src/auth/auth.service.ts:132-167 | The method is the step Reset, whichever matching row the database picks |
| SessionServices.AuthService.IssueTokenPair | src/auth/auth.service.ts:177-204 | Inserts one fresh unrevoked token for the user |
| SessionServices.TokenCleanupService.RemoveExpiredRefreshTokens | src/maintenance/token-cleanup.service.ts:18-25 | The method is the step Cleanup, and counts the rows it deleted |

## Left out

- RideInterleaving.IntactRunIsCoupled: Level B does not keep the coupling unconditionally (CouplingCanBreak); RunIsSoundIffIntact says when.
- RideTiming.PendingOffersAreTimed: Level A; at Level B RideJobs.RunIsCoveredIff says when a PENDING offer has its job, and not when that job is due.
- RideInvariant.AcceptAnnouncesItsEffect: Level A; at Level B RideAnnouncements.AcceptAnnouncesIff says when it holds.
- RideInvariant.CancelAnnouncesItsEffect: Level A; at Level B RideAnnouncements.CancelAnnouncesIff says when it holds.
- SessionInvariant.AcceptedTokensDescend: Level A; at Level B SessionSoundness.RunIsSoundIff says when it holds.
- SessionInvariant.OnlyNewestCodesReset: Level A; at Level B SessionSoundness.RunIsSoundIff says when it holds.
- SessionCleanup.CleanupIsUnobservable: Level A; at Level B SessionSoundness.CleanupShowsIffExpired says when a refresh in flight sees it.
- SessionEffects.ResetEndsSessions: Level A; at Level B SessionKeys.RunIsFittingIff says when only the new password opens sessions.
- RideCalls.RideMovesIff: Level A; the calls of Level B write what they read earlier, and RideInterleaving.RunIsSoundIffIntact says when that still fits.
- RideFares.FaresAreLatest: Level A; at Level B RideFares.RunAgreesIff says when it holds of trips.
- OnboardingCalls.StatusMovesIff: Level A; at Level B OnboardingChain.RunIsChainedIff says when writes still fit their applications.
- Ratings are modelled at Level A only.
- Ratings.RatingIsMean: Level A. Float rounding is not modelled.
- OnboardingInvariant.AuthorityChain: Level A; at Level B OnboardingChain.RunIsChainedIff and OnboardingGuard.RunIsGuardedIff say when it holds.
- OnboardingServices.DriversService.SetOnlineStatus: the event it emits, which only the gateway reads.
- OnboardingServices.DriversService.GoOffline: the event it emits; the driver job it schedules is in the negotiation's own step of that name, the location fields nowhere.
- OnboardingInterleaving.DocumentsPrecedeReview: an upload counts for the one row it upserts; the file behind it is the subject of Documents.RowsAlwaysResolve.
- Documents.UploadThenGet: the file extension in a storage key is omitted, the UUID alone making keys fresh.
- CacheModel.CacheService.GetOrSet: the TTL; an entry may be evicted at any moment instead.
- RideServices.RideRequestsService.Create: pickup and drop-off points, the search for nearby drivers and the event naming them.
- RideServices.OfferExpiryProcessor.Process: unknown job names, which are only logged; the number of attempts and the back-off between them, a held job returning to the queue or running out of attempts at any moment instead.
- SessionServices.AuthService.ForgotPassword: the SMS that carries the code.
- SessionServices.AuthService.IssueTokenPair: the signed access token and the role in it.
- The gateway's map of active trips, its rooms and relays; matching by PostGIS SQL, great-circle distance, controllers, validation, response shapes, health endpoints, logging and configuration.
- The list endpoints, the resume step of an application's status, and the seed, which builds states the services cannot reach.
