/**
 * Level B of the expiry jobs: exactly which events leave a PENDING offer that
 * nothing will expire.
 */
module RideJobs {
  import opened Common
  import opened RideModel
  import opened RideInvariant
  import opened RideInterleaving

  // ----------------------------------------------------------------- Cover

  /** A call in flight that will schedule the offer's job, or expire the offer. */
  predicate Serves(k: Cont, o: OfferId) {
    match k
    case RemoveOldJob(offer, _) => offer == o
    case AddNewJob(offer, _) => offer == o
    case WriteExpiry(offer, _) => offer == o
    case _ => false
  }

  /** A worker in flight with the job, under that lock. */
  predicate WorksOn(k: Cont, job: Job, lock: nat) {
    match k
    case WriteExpiry(offer, worker) => job == ExpireOffer(offer) && worker == lock
    case WriteDriverExpiry(driver, worker) => job == ExpireDriverOffers(driver) && worker == lock
    case Acknowledge(held, worker) => job == held && worker == lock
    case _ => false
  }

  ghost predicate IsServed(y: Sys, o: OfferId) {
    exists i :: i in y.calls && Serves(y.calls[i], o)
  }

  /** The worker that holds the job is gone, so the job is still to be done. */
  ghost predicate IsStalled(y: Sys, job: Job) {
    job in y.s.held && forall i :: i in y.calls ==> !WorksOn(y.calls[i], job, y.s.held[job])
  }

  ghost predicate IsCovered(y: Sys, o: OfferId) {
    ExpireOffer(o) in y.s.jobs || IsStalled(y, ExpireOffer(o)) || IsServed(y, o)
  }

  /** Every PENDING offer has its job waiting or stalled, about to be scheduled, or in a worker's hands. */
  ghost predicate Covered(y: Sys) {
    forall o {:trigger IsCovered(y, o)} :: IsPending(y.s.db, o) ==> IsCovered(y, o)
  }

  /** The same, one call left out of account. */
  function Without(y: Sys, id: nat): Sys {
    y.(calls := y.calls - {id})
  }

  /** What has to be so for the event to leave every PENDING offer covered. */
  ghost predicate KeepsCover(y: Sys, e: Event) {
    match e
    case Begin(_, _) => true
    case Resume(id) => id in y.calls ==> ResumeSpares(y, id)
    case Crash(id) =>
      id in y.calls ==>
        forall o {:trigger IsCovered(Without(y, id), o)} ::
          Serves(y.calls[id], o) && IsPending(y.s.db, o) ==> IsCovered(Without(y, id), o)
    case Requeue(_, _) => true
    case GiveUp(job) => job in y.s.held && job.ExpireOffer? && IsPending(y.s.db, job.offer) ==> IsServed(y, job.offer)
  }

  /**
   * An accept removes the waiting jobs of the offers it read, and a submission's
   * new job is ignored while the queue still has the old one.
   */
  ghost predicate ResumeSpares(y: Sys, id: nat)
    requires id in y.calls
  {
    match y.calls[id]
    case RemoveJobs(t, _, others) =>
      forall o {:trigger IsServed(y, o)} ::
        o in {t.offer} + others && IsPending(y.s.db, o) ==> IsStalled(y, ExpireOffer(o)) || IsServed(y, o)
    case AddNewJob(o, _) =>
      IsPending(y.s.db, o) && IsKnown(y.s, ExpireOffer(o)) ==> IsCovered(Without(y, id), o)
    case _ => true
  }

  lemma CrashKeepsCoverIff(y: Sys, id: nat)
    requires Valid(y) && Covered(y)
    ensures Covered(Happen(y, Crash(id))) <==> KeepsCover(y, Crash(id))
  {
    assert Happen(y, Crash(id)) == Without(y, id);
    forall o | IsPending(y.s.db, o) && !(id in y.calls && Serves(y.calls[id], o))
      ensures IsCovered(Without(y, id), o)
    {
      assert IsCovered(y, o);
      if IsServed(y, o) {
        var i :| i in y.calls && Serves(y.calls[i], o);
        assert i in Without(y, id).calls;
      }
    }
  }

  lemma OutsideKeepsCover(y: Sys, id: nat, call: Step)
    requires Valid(y) && Covered(y) && !IsCall(call)
    ensures Covered(Happen(y, Begin(id, call)))
  {
    var y' := Happen(y, Begin(id, call));
    OutsideGrows(y.s, call);
    OutsideKeepsJobs(y.s, call);
    forall o | IsPending(y'.s.db, o) ensures IsCovered(y', o) {
      assert IsCovered(y, o);
      if IsServed(y, o) {
        var i :| i in y.calls && Serves(y.calls[i], o);
        assert i in y'.calls;
      }
    }
  }

  lemma OutsideKeepsJobs(s: State, call: Step)
    requires Schema(s.db) && !IsCall(call)
    ensures s.jobs.Keys <= Apply(s, call).jobs.Keys && Apply(s, call).held == s.held
  {
  }

  lemma CallKeepsCover(y: Sys, id: nat, call: Step)
    requires Valid(y) && Covered(y) && IsCall(call) && id !in y.calls && CanStart(y.s, call)
    ensures Covered(Happen(y, Begin(id, call)))
  {
    var y' := Happen(y, Begin(id, call));
    forall o | IsPending(y'.s.db, o) ensures IsCovered(y', o) {
      assert IsCovered(y, o);
      StartKeepsCovered(y, id, call, o);
    }
  }

  lemma StartKeepsCovered(y: Sys, id: nat, call: Step, o: OfferId)
    requires Valid(y) && IsCall(call) && id !in y.calls && CanStart(y.s, call)
    requires IsPending(y.s.db, o) && IsCovered(y, o)
    ensures IsCovered(Happen(y, Begin(id, call)), o)
  {
    var y' := Happen(y, Begin(id, call));
    if IsServed(y, o) {
      var i :| i in y.calls && Serves(y.calls[i], o);
      assert i in y'.calls && Serves(y'.calls[i], o);
    } else if call == DoJob(ExpireOffer(o)) {
      assert y'.calls[id] == WriteExpiry(o, id);
    } else if IsStalled(y, ExpireOffer(o)) {
      FirstWorksOnItsJob(y.s, id, call);
      assert y'.s.held[ExpireOffer(o)] == y.s.held[ExpireOffer(o)];
    }
  }

  lemma FirstWorksOnItsJob(s: State, id: nat, call: Step)
    requires Schema(s.db) && IsCall(call)
    ensures forall job, lock :: First(s, id, call).Some? && WorksOn(First(s, id, call).value, job, lock) ==>
      call == DoJob(job)
  {
  }

  /** What becomes of one job says nothing of other offers. */
  lemma QueueSparesOthers(y: Sys, e: Event, o: OfferId)
    requires Valid(y) && (e.Requeue? || e.GiveUp?) && e != GiveUp(ExpireOffer(o)) && IsCovered(y, o)
    ensures IsCovered(Happen(y, e), o)
  {
    if IsServed(y, o) {
      var i :| i in y.calls && Serves(y.calls[i], o);
      assert i in Happen(y, e).calls;
    }
  }

  lemma GivenUp(y: Sys, o: OfferId)
    requires Valid(y) && ExpireOffer(o) in y.s.held
    ensures IsCovered(Happen(y, GiveUp(ExpireOffer(o))), o) <==> IsServed(y, o)
  {
    var y' := Happen(y, GiveUp(ExpireOffer(o)));
    assert y'.calls == y.calls && ExpireOffer(o) !in y'.s.jobs && ExpireOffer(o) !in y'.s.held;
    assert IsServed(y', o) <==> IsServed(y, o);
  }

  lemma QueueKeepsCoverIff(y: Sys, e: Event)
    requires Valid(y) && Covered(y) && (e.Requeue? || e.GiveUp?)
    ensures Covered(Happen(y, e)) <==> KeepsCover(y, e)
  {
    var y' := Happen(y, e);
    assert y'.s.db == y.s.db;
    forall o | IsPending(y.s.db, o) && e != GiveUp(ExpireOffer(o)) ensures IsCovered(y', o) {
      assert IsCovered(y, o);
      QueueSparesOthers(y, e, o);
    }
    if e.GiveUp? && e.held.ExpireOffer? {
      var o := e.held.offer;
      if e.held in y.s.held {
        GivenUp(y, o);
        assert IsCovered(y', o) <==> IsServed(y, o);
      } else {
        assert y' == y;
      }
    }
  }

  lemma PerformPending(d: Db, c: Commit, o: OfferId)
    requires Holds(d, c) && IsPending(Perform(d, c), o)
    ensures IsPending(d, o) || (c.Upsert? && c.offer == o)
    ensures c.ExpireOne? ==> c.offer != o
  {
  }

  /** Only an upsert makes an offer PENDING. */
  lemma NextPending(s: State, k: Cont, o: OfferId)
    requires Schema(s.db) && Remembers(s, k) && IsPending(Next(s, k).s.db, o)
    ensures IsPending(s.db, o) || (k.WriteOffer? && k.offer == o)
    ensures k.WriteExpiry? ==> k.offer != o
  {
    NextPerforms(s, k);
    if CommitOf(k).Some? { PerformPending(s.db, CommitOf(k).value, o); }
  }

  /** Which waiting jobs a step takes away, and which it adds. */
  lemma NextJobs(s: State, k: Cont)
    requires Schema(s.db) && Remembers(s, k) && InOnePlace(s)
    ensures k.RemoveOldJob? ==> Next(s, k).next == Some(AddNewJob(k.offer, k.rider))
    ensures k.WriteOffer? ==> Next(s, k).next == Some(RemoveOldJob(k.offer, k.rider))
    ensures !k.RemoveJobs? ==> forall o :: ExpireOffer(o) in s.jobs && !(k.RemoveOldJob? && k.offer == o) ==>
      ExpireOffer(o) in Next(s, k).s.jobs
    ensures k.AddNewJob? ==> forall o :: ExpireOffer(o) in Next(s, k).s.jobs <==>
      ExpireOffer(o) in s.jobs || (o == k.offer && !IsKnown(s, ExpireOffer(o)))
    ensures k.RemoveJobs? ==> forall o :: ExpireOffer(o) in Next(s, k).s.jobs <==>
      ExpireOffer(o) in s.jobs && o !in {k.accept.offer} + k.others
    ensures k.AddNewJob? || k.RemoveJobs? ==> Next(s, k).s.db == s.db && Next(s, k).next == None
  {
  }

  /** Locks are given up by their own workers only, and the next step is about the same job. */
  lemma NextLocks(s: State, k: Cont)
    requires Schema(s.db) && Remembers(s, k)
    ensures forall j :: j in s.held && !WorksOn(k, j, s.held[j]) ==>
      j in Next(s, k).s.held && Next(s, k).s.held[j] == s.held[j]
    ensures forall j :: j in Next(s, k).s.held ==> j in s.held && Next(s, k).s.held[j] == s.held[j]
    ensures Next(s, k).next.Some? ==>
      forall j, lock :: WorksOn(Next(s, k).next.value, j, lock) ==> WorksOn(k, j, lock)
  {
  }

  lemma StalledStays(y: Sys, id: nat, job: Job)
    requires Valid(y) && id in y.calls && IsStalled(y, job)
    ensures IsStalled(Happen(y, Resume(id)), job)
  {
    NextLocks(y.s, y.calls[id]);
  }

  lemma ResumeKeepsCover(y: Sys, id: nat)
    requires Valid(y) && Covered(y) && id in y.calls && !y.calls[id].RemoveJobs? && !y.calls[id].AddNewJob?
    ensures Covered(Happen(y, Resume(id)))
  {
    var y' := Happen(y, Resume(id));
    var k := y.calls[id];
    NextJobs(y.s, k);
    forall o | IsPending(y'.s.db, o) ensures IsCovered(y', o) {
      NextPending(y.s, k, o);
      if k.WriteOffer? && k.offer == o {
        assert Serves(y'.calls[id], o);
      } else {
        assert IsCovered(y, o);
        StaysCovered(y, id, o);
      }
    }
  }

  lemma StaysCovered(y: Sys, id: nat, o: OfferId)
    requires Valid(y) && id in y.calls && !y.calls[id].RemoveJobs? && !y.calls[id].AddNewJob? && IsCovered(y, o)
    requires y.calls[id].WriteExpiry? ==> y.calls[id].offer != o
    ensures IsCovered(Happen(y, Resume(id)), o)
  {
    var y' := Happen(y, Resume(id));
    NextJobs(y.s, y.calls[id]);
    if Serves(y.calls[id], o) {
      assert Serves(y'.calls[id], o);
    } else if IsServed(y, o) {
      var i :| i in y.calls && Serves(y.calls[i], o);
      assert i in y'.calls && Serves(y'.calls[i], o);
    } else if IsStalled(y, ExpireOffer(o)) {
      StalledStays(y, id, ExpireOffer(o));
    }
  }

  /** The last step of a submission or an accept: the tables and the locks stay, the call is gone. */
  lemma LastStep(y: Sys, id: nat, o: OfferId)
    requires Valid(y) && id in y.calls && (y.calls[id].RemoveJobs? || y.calls[id].AddNewJob?)
    ensures var y' := Happen(y, Resume(id));
      && y'.s.db == y.s.db && y'.calls == Without(y, id).calls
      && (IsStalled(y', ExpireOffer(o)) <==> IsStalled(y, ExpireOffer(o)))
      && (IsStalled(Without(y, id), ExpireOffer(o)) <==> IsStalled(y, ExpireOffer(o)))
      && (IsServed(y', o) <==> IsServed(Without(y, id), o))
  {
    NextJobs(y.s, y.calls[id]);
    NextLocks(y.s, y.calls[id]);
    var y' := Happen(y, Resume(id));
    assert IsStalled(Without(y, id), ExpireOffer(o)) ==> IsStalled(y, ExpireOffer(o)) by {
      forall i | i in y.calls && i != id ensures i in Without(y, id).calls {}
    }
  }

  /** Whoever serves an offer that a call does not serve is another call. */
  lemma ServedByAnother(y: Sys, id: nat, o: OfferId)
    requires id in y.calls && !Serves(y.calls[id], o)
    ensures IsServed(Without(y, id), o) <==> IsServed(y, o)
  {
    if i :| i in y.calls && Serves(y.calls[i], o) {
      assert i in Without(y, id).calls;
    }
  }

  lemma RemoveJobsKeepsCoverIff(y: Sys, id: nat)
    requires Valid(y) && Covered(y) && id in y.calls && y.calls[id].RemoveJobs?
    ensures Covered(Happen(y, Resume(id))) <==> KeepsCover(y, Resume(id))
  {
    var y' := Happen(y, Resume(id));
    var removed := {y.calls[id].accept.offer} + y.calls[id].others;
    NextJobs(y.s, y.calls[id]);
    forall o | IsPending(y.s.db, o)
      ensures IsCovered(y', o) <==> o !in removed || IsStalled(y, ExpireOffer(o)) || IsServed(y, o)
    {
      LastStep(y, id, o);
      ServedByAnother(y, id, o);
      assert IsCovered(y, o);
    }
  }

  lemma AddNewJobKeepsCoverIff(y: Sys, id: nat)
    requires Valid(y) && Covered(y) && id in y.calls && y.calls[id].AddNewJob?
    ensures Covered(Happen(y, Resume(id))) <==> KeepsCover(y, Resume(id))
  {
    var y' := Happen(y, Resume(id));
    NextJobs(y.s, y.calls[id]);
    forall o | IsPending(y.s.db, o)
      ensures IsCovered(y', o) <==>
        o != y.calls[id].offer || !IsKnown(y.s, ExpireOffer(o)) || IsCovered(Without(y, id), o)
    {
      LastStep(y, id, o);
      assert IsCovered(y, o);
      if o != y.calls[id].offer { ServedByAnother(y, id, o); }
    }
  }

  /** Level B. Every PENDING offer stays covered through an event exactly when KeepsCover says so. */
  lemma CoverIff(y: Sys, e: Event)
    requires Valid(y) && Covered(y)
    ensures Covered(Happen(y, e)) <==> KeepsCover(y, e)
  {
    match e
    case Begin(id, call) =>
      if !IsCall(call) {
        OutsideKeepsCover(y, id, call);
      } else if id !in y.calls && CanStart(y.s, call) {
        CallKeepsCover(y, id, call);
      }
    case Resume(id) =>
      if id in y.calls {
        if y.calls[id].RemoveJobs? {
          RemoveJobsKeepsCoverIff(y, id);
        } else if y.calls[id].AddNewJob? {
          AddNewJobKeepsCoverIff(y, id);
        } else {
          ResumeKeepsCover(y, id);
        }
      }
    case Crash(id) => CrashKeepsCoverIff(y, id);
    case Requeue(_, _) => QueueKeepsCoverIff(y, e);
    case GiveUp(_) => QueueKeepsCoverIff(y, e);
  }

  ghost predicate AlwaysCovered(y: Sys, events: seq<Event>)
    requires Valid(y)
    decreases |events|
  {
    if events == [] then Covered(y) else
    HappenKeepsValid(y, events[0]);
    Covered(y) && AlwaysCovered(Happen(y, events[0]), events[1..])
  }

  ghost predicate AllKeepCover(y: Sys, events: seq<Event>)
    requires Valid(y)
    decreases |events|
  {
    if events == [] then true else
    HappenKeepsValid(y, events[0]);
    KeepsCover(y, events[0]) && AllKeepCover(Happen(y, events[0]), events[1..])
  }

  lemma {:induction false} AlwaysCoveredIff(y: Sys, events: seq<Event>)
    requires Valid(y) && Covered(y)
    ensures AlwaysCovered(y, events) <==> AllKeepCover(y, events)
    decreases |events|
  {
    if events != [] {
      HappenKeepsValid(y, events[0]);
      CoverIff(y, events[0]);
      if KeepsCover(y, events[0]) { AlwaysCoveredIff(Happen(y, events[0]), events[1..]); }
    }
  }

  /**
   * Level B, every run from the empty system: PENDING offers are covered
   * throughout if and only if every event keeps cover.
   */
  lemma {:induction false} RunIsCoveredIff(expirySeconds: nat, events: seq<Event>)
    ensures var y := Sys(Initial(expirySeconds), map[]); AlwaysCovered(y, events) <==> AllKeepCover(y, events)
  {
    AlwaysCoveredIff(Sys(Initial(expirySeconds), map[]), events);
  }
}
