/**
 * Level B: the authority chain while drivers leave driver mode. Leaving takes
 * two writes, the mode and then the online flag; a driver between the two is
 * on line in rider mode, with the call that ends this in flight.
 */
module OnboardingGuard {
  import opened Common
  import opened CacheModel
  import opened Onboarding
  import opened OnboardingInterleaving
  import opened OnboardingChain
  import I = IdentityCache
  import V = OnboardingInvariant

  /** A call in flight that will take the user's driver off line, unless it dies. */
  predicate TakesOffline(k: Cont, user: UserId) {
    match k
    case ModeNow(LookUp(u, online)) => u == user && !online
    case ModeNow(ReadProfile(u, online)) => u == user && !online
    case ModeNow(FillCache(u, online, found)) => u == user && !online && found.Some?
    case ModeNow(WriteFlag(u, online)) => u == user && !online
    case _ => false
  }

  ghost predicate IsLeaving(y: System, user: UserId) {
    exists i :: i in y.calls && TakesOffline(y.calls[i], user)
  }

  predicate InDriverMode(s: State, user: UserId) {
    user in s.users && s.users[user] == DriverMode
  }

  /** On line implies driver mode, or a call about to end it. */
  ghost predicate UserGuarded(y: System, user: UserId) {
    IsOnline(y.s, user) ==> InDriverMode(y.s, user) || IsLeaving(y, user)
  }

  ghost predicate UsersGuarded(y: System) {
    forall u {:trigger UserGuarded(y, u)} :: UserGuarded(y, u)
  }

  /** The authority chain, a driver who is leaving aside. */
  ghost predicate Guarded(y: System) {
    V.ApplicationsOk(y.s) && UsersGuarded(y)
  }

  /** The system without one of its calls. */
  function Without(y: System, id: nat): System {
    y.(calls := y.calls - {id})
  }

  /**
   * What has to be so for the event to leave the chain guarded: a write still
   * fits the application, the flag is raised in driver mode or while another
   * call will lower it, and of the calls that will lower the flag of a driver on
   * line in rider mode the last does not die.
   */
  ghost predicate KeepsGuard(y: System, e: Happening) {
    match e
    case Arrive(_, _) => true
    case Advance(id) =>
      id in y.calls ==>
        (match y.calls[id]
         case WriteNow(c) => V.Intact(y.s, c)
         case ModeNow(WriteFlag(user, online)) =>
           online && HasProfile(y.s, user) ==> InDriverMode(y.s, user) || IsLeaving(y, user)
         case _ => true)
    case Die(id) =>
      id in y.calls ==>
        forall u {:trigger UserGuarded(Without(y, id), u)} ::
          TakesOffline(y.calls[id], u) ==> UserGuarded(Without(y, id), u)
  }

  /** With no one leaving, the guarded chain is the chain itself. */
  lemma QuietChain(y: System)
    requires Valid(y) && Guarded(y)
    requires forall u :: !IsLeaving(y, u)
    ensures V.Chain(y.s)
  {
    forall p | p in y.s.profiles ensures V.OnlineOk(y.s, p) {
      assert ProfileKeyed(y.s, p);
      assert UserGuarded(y, y.s.profiles[p].userId);
    }
  }

  /** What a step on modes and flags does to any one user. */
  lemma ModeStepFor(s: State, k: ModeCont, u: UserId)
    requires Schema(s)
    ensures var s' := NextMode(s, k).s;
      && (IsOnline(s', u) <==>
            if k.WriteFlag? && k.user == u then HasProfile(s, u) && k.online else IsOnline(s, u))
      && (InDriverMode(s', u) <==> if k.WriteMode? && k.user == u then k.mode == DriverMode else InDriverMode(s, u))
  {
    if HasProfile(s, u) { assert ProfileKeyed(s, s.profileByUser[u]); }
  }

  lemma LeavingGoesOn(s: State, k: ModeCont, u: UserId)
    requires TakesOffline(ModeNow(k), u) && !k.WriteFlag? && HasProfile(s, u)
    ensures NextMode(s, k).next.Some? && TakesOffline(NextMode(s, k).next.value, u)
  {
  }

  lemma StillLeaving(y: System, id: nat, u: UserId)
    requires Valid(y) && id in y.calls && y.calls[id].ModeNow? && IsLeaving(y, u) && HasProfile(y.s, u)
    requires !(y.calls[id].next.WriteFlag? && TakesOffline(y.calls[id], u))
    ensures IsLeaving(Happen(y, Advance(id)), u)
  {
    var y' := Happen(y, Advance(id));
    if TakesOffline(y.calls[id], u) {
      LeavingGoesOn(y.s, y.calls[id].next, u);
      assert id in y'.calls && TakesOffline(y'.calls[id], u);
    } else {
      var i :| i in y.calls && TakesOffline(y.calls[i], u);
      assert i in y'.calls && TakesOffline(y'.calls[i], u);
    }
  }

  /** The last step of a call that raises a flag leaves the others in flight. */
  lemma RaisingLeaves(y: System, id: nat, u: UserId)
    requires Valid(y) && id in y.calls && y.calls[id].ModeNow? && y.calls[id].next.WriteFlag?
    requires !TakesOffline(y.calls[id], u)
    ensures IsLeaving(Happen(y, Advance(id)), u) <==> IsLeaving(y, u)
  {
    var y' := Happen(y, Advance(id));
    assert y'.calls == y.calls - {id};
    if i :| i in y.calls && TakesOffline(y.calls[i], u) {
      assert i in y'.calls && TakesOffline(y'.calls[i], u);
    }
  }

  lemma ModeStepGuards(y: System, id: nat, u: UserId)
    requires Valid(y) && id in y.calls && y.calls[id].ModeNow? && UserGuarded(y, u)
    ensures UserGuarded(Happen(y, Advance(id)), u) <==>
      (y.calls[id].next == WriteFlag(u, true) && HasProfile(y.s, u) ==> InDriverMode(y.s, u) || IsLeaving(y, u))
  {
    var y' := Happen(y, Advance(id));
    var k := y.calls[id].next;
    ModeStepFor(y.s, k, u);
    if k == WriteFlag(u, true) {
      RaisingLeaves(y, id, u);
    } else if k == WriteMode(u, RiderMode) {
      assert y'.calls[id] == ModeNow(LookUp(u, false));
      assert TakesOffline(y'.calls[id], u);
    } else if IsOnline(y'.s, u) && IsLeaving(y, u) {
      StillLeaving(y, id, u);
    }
  }

  lemma ModeStepKeepsApplications(s: State, k: ModeCont)
    requires Kept(s) && Remembers(s, ModeNow(k)) && V.ApplicationsOk(s)
    ensures V.ApplicationsOk(NextMode(s, k).s)
  {
    ModeKeeps(s, k);
    V.FlagsKeepSchema(s, NextMode(s, k).s);
  }

  lemma ModeStepKeepsGuardIff(y: System, id: nat)
    requires Valid(y) && Guarded(y) && id in y.calls && y.calls[id].ModeNow?
    ensures Guarded(Happen(y, Advance(id))) <==> KeepsGuard(y, Advance(id))
  {
    var y' := Happen(y, Advance(id));
    ModeStepKeepsApplications(y.s, y.calls[id].next);
    forall u ensures UserGuarded(y', u) <==>
      (y.calls[id].next == WriteFlag(u, true) && HasProfile(y.s, u) ==> InDriverMode(y.s, u) || IsLeaving(y, u))
    {
      assert UserGuarded(y, u);
      ModeStepGuards(y, id, u);
    }
  }

  /** Steps on applications and documents leave every driver as guarded as before. */
  lemma OtherStepGuards(y: System, id: nat, u: UserId)
    requires Valid(y) && id in y.calls && !y.calls[id].ModeNow? && UserGuarded(y, u)
    ensures UserGuarded(Happen(y, Advance(id)), u)
  {
    var y' := Happen(y, Advance(id));
    OtherStepFlags(y.s, y.calls[id], u);
    if IsOnline(y'.s, u) && IsLeaving(y, u) {
      var i :| i in y.calls && TakesOffline(y.calls[i], u);
      assert i in y'.calls && TakesOffline(y'.calls[i], u);
    }
  }

  /** A new profile is off line. */
  lemma WriteRaisesNoFlag(s: State, s': State, c: Commit, u: UserId)
    requires Schema(s) && !Refused(s, c) && V.Wrote(s, s', c)
    ensures IsOnline(s', u) ==> IsOnline(s, u)
  {
  }

  lemma OtherStepFlags(s: State, k: Cont, u: UserId)
    requires Schema(s) && Remembers(s, k) && !k.ModeNow?
    ensures IsOnline(Next(s, k).s, u) ==> IsOnline(s, u)
    ensures Next(s, k).s.users == s.users
  {
    if !k.WriteNow? {
      UploadsOnly(s, k);
    } else if !Refused(s, k.commit) {
      V.PerformWrote(s, k.commit);
      WriteRaisesNoFlag(s, Perform(s, k.commit), k.commit, u);
    }
  }

  lemma UploadsOnly(s: State, k: Cont)
    requires Remembers(s, k) && !k.ModeNow? && !k.WriteNow?
    ensures Next(s, k).s == s.(documents := Next(s, k).s.documents) && s.documents <= Next(s, k).s.documents
  {
  }

  lemma OtherStepKeepsGuardIff(y: System, id: nat)
    requires Valid(y) && Guarded(y) && id in y.calls && !y.calls[id].ModeNow?
    ensures Guarded(Happen(y, Advance(id))) <==> KeepsGuard(y, Advance(id))
  {
    var y' := Happen(y, Advance(id));
    forall u ensures UserGuarded(y', u) {
      assert UserGuarded(y, u);
      OtherStepGuards(y, id, u);
    }
    OtherStepKeepsApplications(y.s, y.calls[id]);
  }

  lemma OtherStepKeepsApplications(s: State, k: Cont)
    requires Kept(s) && Remembers(s, k) && !k.ModeNow? && V.ApplicationsOk(s)
    ensures V.ApplicationsOk(Next(s, k).s) <==> (k.WriteNow? ==> V.Intact(s, k.commit))
  {
    if !k.WriteNow? {
      var s' := Next(s, k).s;
      UploadsOnly(s, k);
      forall a | a in s'.applications ensures V.ApplicationOk(s', a) { assert V.ApplicationOk(s, a); }
    } else if !Refused(s, k.commit) {
      V.PerformWrote(s, k.commit);
      V.WriteDecidesApplications(s, Perform(s, k.commit), k.commit);
    }
  }

  lemma ArrivalKeepsGuard(y: System, id: nat, call: Step)
    requires Valid(y) && Guarded(y)
    ensures Guarded(Happen(y, Arrive(id, call)))
  {
    var y' := Happen(y, Arrive(id, call));
    if !IsLong(call) {
      OutsideKeepsModes(y.s, call);
      V.FlagsKeepSchema(y.s, y'.s);
    }
    ArrivalKeepsFlags(y, id, call);
    forall u ensures UserGuarded(y', u) {
      assert UserGuarded(y, u);
      if IsLeaving(y, u) {
        var i :| i in y.calls && TakesOffline(y.calls[i], u);
        assert i in y'.calls && TakesOffline(y'.calls[i], u);
      }
    }
  }

  /** Neither the flags nor the modes of users there are, nor the calls in flight. */
  ghost predicate SameFlags(y: System, y': System) {
    && y'.s.profiles == y.s.profiles && y'.s.profileByUser == y.s.profileByUser
    && (forall u :: u in y.s.users ==> u in y'.s.users && y'.s.users[u] == y.s.users[u])
    && (forall i :: i in y.calls ==> i in y'.calls && y'.calls[i] == y.calls[i])
  }

  lemma OutsideKeepsFlags(y: System, call: Step)
    requires Valid(y) && !IsLong(call)
    ensures SameFlags(y, y.(s := Apply(y.s, call)))
  {
  }

  lemma NewCallKeepsFlags(y: System, id: nat, next: Option<Cont>)
    requires id !in y.calls
    ensures SameFlags(y, Update(y, id, y.s, next))
  {
  }

  lemma ArrivalKeepsFlags(y: System, id: nat, call: Step)
    requires Valid(y)
    ensures SameFlags(y, Happen(y, Arrive(id, call)))
  {
    if !IsLong(call) {
      OutsideKeepsFlags(y, call);
    } else if id !in y.calls {
      NewCallKeepsFlags(y, id, First(y.s, call));
    }
  }

  lemma DeathKeepsGuardIff(y: System, id: nat)
    requires Valid(y) && Guarded(y)
    ensures Guarded(Happen(y, Die(id))) <==> KeepsGuard(y, Die(id))
  {
    assert Happen(y, Die(id)) == Without(y, id);
    forall u | !(id in y.calls && TakesOffline(y.calls[id], u)) ensures UserGuarded(Without(y, id), u) {
      assert UserGuarded(y, u);
      if IsLeaving(y, u) {
        var i :| i in y.calls && TakesOffline(y.calls[i], u);
        assert i in Without(y, id).calls;
      }
    }
  }

  /** Level B. The chain stays guarded through an event exactly when KeepsGuard says so. */
  lemma GuardIff(y: System, e: Happening)
    requires Valid(y) && Guarded(y)
    ensures Guarded(Happen(y, e)) <==> KeepsGuard(y, e)
  {
    match e
    case Arrive(id, call) => ArrivalKeepsGuard(y, id, call);
    case Advance(id) =>
      if id in y.calls {
        if y.calls[id].ModeNow? { ModeStepKeepsGuardIff(y, id); } else { OtherStepKeepsGuardIff(y, id); }
      }
    case Die(id) => DeathKeepsGuardIff(y, id);
  }

  ghost predicate AlwaysGuarded(y: System, events: seq<Happening>)
    requires Valid(y)
    decreases |events|
  {
    if events == [] then Guarded(y) else
    HappenKeepsValid(y, events[0]);
    Guarded(y) && AlwaysGuarded(Happen(y, events[0]), events[1..])
  }

  ghost predicate AllKeepGuard(y: System, events: seq<Happening>)
    requires Valid(y)
    decreases |events|
  {
    if events == [] then true else
    HappenKeepsValid(y, events[0]);
    KeepsGuard(y, events[0]) && AllKeepGuard(Happen(y, events[0]), events[1..])
  }

  lemma {:induction false} AlwaysGuardedIff(y: System, events: seq<Happening>)
    requires Valid(y) && Guarded(y)
    ensures AlwaysGuarded(y, events) <==> AllKeepGuard(y, events)
    decreases |events|
  {
    if events != [] {
      HappenKeepsValid(y, events[0]);
      GuardIff(y, events[0]);
      if KeepsGuard(y, events[0]) { AlwaysGuardedIff(Happen(y, events[0]), events[1..]); }
    }
  }

  /** Level B, every run from the empty system: the chain is guarded throughout exactly when every event keeps it so. */
  lemma {:induction false} RunIsGuardedIff(events: seq<Happening>)
    ensures AlwaysGuarded(NOTHING, events) <==> AllKeepGuard(NOTHING, events)
  {
    AlwaysGuardedIff(NOTHING, events);
  }

  lemma {:induction false} GuardedAtEnd(y: System, events: seq<Happening>)
    requires Valid(y) && AlwaysGuarded(y, events)
    ensures Guarded(RunAll(y, events))
    decreases |events|
  {
    if events != [] {
      HappenKeepsValid(y, events[0]);
      GuardedAtEnd(Happen(y, events[0]), events[1..]);
    }
  }

  /** Level B, every run whose events keep the guard: whenever no one is leaving, the whole chain holds. */
  lemma {:induction false} GuardedRunIsChained(events: seq<Happening>)
    requires AllKeepGuard(NOTHING, events)
    requires forall u :: !IsLeaving(RunAll(NOTHING, events), u)
    ensures V.Chain(RunAll(NOTHING, events).s)
  {
    RunIsGuardedIff(events);
    GuardedAtEnd(NOTHING, events);
    QuietChain(RunAll(NOTHING, events));
  }
}
