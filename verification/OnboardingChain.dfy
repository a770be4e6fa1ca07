/**
 * Level B: exactly which steps keep the authority chain, over every run, and
 * runs that lose it.
 */
module OnboardingChain {
  import opened Common
  import opened CacheModel
  import D = Documents
  import opened Onboarding
  import opened OnboardingInterleaving
  import I = IdentityCache
  import V = OnboardingInvariant

  predicate IsOnline(s: State, user: UserId) {
    HasProfile(s, user) && s.profiles[s.profileByUser[user]].isOnline
  }

  /**
   * What has to be so for the event to keep the chain: a write still fits the
   * application, the flag is raised in driver mode, the driver who leaves that
   * mode is off line already.
   */
  predicate KeepsChain(y: System, e: Happening) {
    e.Advance? && e.id in y.calls ==>
      match y.calls[e.id]
      case WriteNow(c) => V.Intact(y.s, c)
      case ModeNow(WriteFlag(user, online)) =>
        online && HasProfile(y.s, user) ==> user in y.s.users && y.s.users[user] == DriverMode
      case ModeNow(WriteMode(user, mode)) => mode == RiderMode ==> !IsOnline(y.s, user)
      case _ => true
  }

  ghost predicate FlagsOk(s: State) {
    forall p {:trigger V.OnlineOk(s, p)} :: p in s.profiles ==> V.OnlineOk(s, p)
  }

  /** Only the user's own profile decides. */
  lemma OneProfileDecides(s: State, k: ModeCont)
    requires Schema(s) && FlagsOk(s)
    ensures NextMode(s, k).s.profiles.Keys == s.profiles.Keys
    ensures FlagsOk(NextMode(s, k).s) <==>
      (HasProfile(s, k.user) ==> V.OnlineOk(NextMode(s, k).s, s.profileByUser[k.user]))
  {
    var s' := NextMode(s, k).s;
    forall p | p in s.profiles && !(HasProfile(s, k.user) && p == s.profileByUser[k.user]) ensures V.OnlineOk(s', p) {
      assert V.OnlineOk(s, p) && ProfileKeyed(s, p);
    }
  }

  lemma ModeStepDecidesFlags(s: State, k: ModeCont)
    requires Schema(s) && FlagsOk(s)
    ensures FlagsOk(NextMode(s, k).s) <==>
      match k
      case WriteFlag(user, online) => online && HasProfile(s, user) ==> user in s.users && s.users[user] == DriverMode
      case WriteMode(user, mode) => mode == RiderMode ==> !IsOnline(s, user)
      case _ => true
  {
    OneProfileDecides(s, k);
    if HasProfile(s, k.user) {
      var p := s.profileByUser[k.user];
      assert V.OnlineOk(s, p) && ProfileKeyed(s, p) && s.profiles[p].userId == k.user;
    }
  }

  lemma ModeStepKeepsChainIff(y: System, id: nat)
    requires Valid(y) && V.Chain(y.s) && id in y.calls && y.calls[id].ModeNow?
    ensures V.Chain(Happen(y, Advance(id)).s) <==> KeepsChain(y, Advance(id))
  {
    var k := y.calls[id].next;
    var s' := NextMode(y.s, k).s;
    ModeKeeps(y.s, k);
    V.FlagsKeepSchema(y.s, s');
    ModeStepDecidesFlags(y.s, k);
  }

  lemma OtherStepKeepsChainIff(y: System, id: nat)
    requires Valid(y) && V.Chain(y.s) && id in y.calls && !y.calls[id].ModeNow?
    ensures V.Chain(Happen(y, Advance(id)).s) <==> KeepsChain(y, Advance(id))
  {
    if y.calls[id].WriteNow? {
      V.ChainIffIntact(y.s, y.calls[id].commit);
    } else {
      V.DocumentsKeepChain(y.s, Next(y.s, y.calls[id]).s.documents);
    }
  }

  /** Level B. The authority chain survives a step exactly when KeepsChain says so. */
  lemma ChainIff(y: System, e: Happening)
    requires Valid(y) && V.Chain(y.s)
    ensures V.Chain(Happen(y, e).s) <==> KeepsChain(y, e)
  {
    match e
    case Arrive(id, call) => if !IsLong(call) { V.ApplyKeepsChain(y.s, call); }
    case Advance(id) =>
      if id in y.calls {
        if y.calls[id].ModeNow? { ModeStepKeepsChainIff(y, id); } else { OtherStepKeepsChainIff(y, id); }
      }
    case Die(_) =>
  }

  ghost predicate AlwaysChained(y: System, events: seq<Happening>)
    requires Valid(y)
    decreases |events|
  {
    if events == [] then V.Chain(y.s) else
    HappenKeepsValid(y, events[0]);
    V.Chain(y.s) && AlwaysChained(Happen(y, events[0]), events[1..])
  }

  ghost predicate AllKeepChain(y: System, events: seq<Happening>)
    requires Valid(y)
    decreases |events|
  {
    if events == [] then true else
    HappenKeepsValid(y, events[0]);
    KeepsChain(y, events[0]) && AllKeepChain(Happen(y, events[0]), events[1..])
  }

  lemma {:induction false} AlwaysChainedIff(y: System, events: seq<Happening>)
    requires Valid(y) && V.Chain(y.s)
    ensures AlwaysChained(y, events) <==> AllKeepChain(y, events)
    decreases |events|
  {
    if events != [] {
      HappenKeepsValid(y, events[0]);
      ChainIff(y, events[0]);
      if KeepsChain(y, events[0]) { AlwaysChainedIff(Happen(y, events[0]), events[1..]); }
    }
  }

  /** Level B, every run from the empty system: the chain holds throughout exactly when every step keeps it. */
  lemma {:induction false} RunIsChainedIff(events: seq<Happening>)
    ensures AlwaysChained(NOTHING, events) <==> AllKeepChain(NOTHING, events)
  {
    AlwaysChainedIff(NOTHING, events);
  }

  // ------------------------------------------------- Switches that cross

  const BUSY := map[1 := ModeNow(WriteFlag(1, true))]

  /** A verified driver, off line, in this mode. */
  ghost predicate IsDriver(s: State, mode: Mode) {
    && Schema(s)
    && s.users == map[1 := mode] && s.profiles.Keys == {7} && s.profiles[7].userId == 1 && !s.profiles[7].isOnline
    && s.profileByUser == map[1 := 7]
  }

  lemma AnApplicant() returns (s: State)
    ensures V.Reached(s) && Schema(s) && s.users == map[1 := RiderMode] && s.redis == map[]
    ensures s.applications == map[1 := V.LICENSED.(vehicle := Some(V.CAR), status := UnderReview)]
    ensures s.profiles == map[] && s.profileByUser == map[] && s.profileByApplication == map[]
  {
    var s1 := V.ALicense();
    V.ReachedVehicle(s1);
    V.VehicleEffect(s1);
    s := SubmitVehicle(s1, 1, V.CAR, V.PAPERS).state;
  }

  lemma ApprovalMakesDriver(s: State)
    requires Schema(s) && s.users == map[1 := RiderMode] && s.redis == map[]
    requires s.applications == map[1 := V.LICENSED.(vehicle := Some(V.CAR), status := UnderReview)]
    requires s.profiles == map[] && s.profileByUser == map[] && s.profileByApplication == map[]
    ensures IsDriver(Review(s, 1, Approval(7)).state, RiderMode) && Review(s, 1, Approval(7)).state.redis == map[]
  {
    V.ApproveKeepsSchema(s, 1, 1, 7);
  }

  lemma ReachedAtOnce(s: State)
    requires V.Reached(s)
    ensures Reached(System(s, map[]))
  {
    var steps :| V.Run(INITIAL, steps) == s;
    assert RunAll(NOTHING, []) == NOTHING;
    AtomicRunsAreRuns(NOTHING, steps);
  }

  lemma AVerified() returns (s: State)
    ensures Reached(System(s, map[])) && IsDriver(s, RiderMode) && s.redis == map[]
  {
    var s1 := AnApplicant();
    ReachedAtOnce(s1);
    ApprovalMakesDriver(s1);
    s := Review(s1, 1, Approval(7)).state;
    ReachedReview(s1, 1, Approval(7));
  }

  lemma ReachedReview(s: State, a: D.AppId, verdict: Verdict)
    requires Reached(System(s, map[]))
    ensures Reached(System(Review(s, a, verdict).state, map[]))
  {
    ReachedTo(System(s, map[]), 1, DoReview(a, verdict), Review(s, a, verdict).state);
  }

  lemma ReachedTo(y: System, id: nat, call: Step, s: State)
    requires Reached(y) && id !in y.calls && Apply(y.s, call) == s
    ensures Reached(System(s, y.calls))
  {
    ReachedCall(y, id, call);
  }

  lemma ToDriverMode(s: State)
    requires IsDriver(s, RiderMode)
    ensures IsDriver(SetActiveProfile(s, 1, DriverMode).state, DriverMode)
  {
    V.FlagsKeepSchema(s, SetActiveProfile(s, 1, DriverMode).state);
  }

  lemma ADriver() returns (y: System)
    ensures Reached(y) && y.calls == map[] && IsDriver(y.s, DriverMode)
  {
    var s := AVerified();
    ToDriverMode(s);
    var s1 := SetActiveProfile(s, 1, DriverMode).state;
    ReachedTo(System(s, map[]), 1, DoSetActiveProfile(1, DriverMode), s1);
    y := System(s1, map[]);
  }

  /** An online switch has passed its guard and its lookup. */
  lemma AnOnlineSwitch() returns (y: System)
    ensures Reached(y) && y.calls == BUSY && IsDriver(y.s, DriverMode)
  {
    var y0 := ADriver();
    ReachedStep(y0, Arrive(1, DoSetOnline(1, true)));
    var y1 := System(y0.s, map[1 := ModeNow(LookUp(1, true))]);
    assert Happen(y0, Arrive(1, DoSetOnline(1, true))) == y1;
    y := ALookUp(y1);
  }

  lemma ALookUp(y: System) returns (z: System)
    requires Reached(y) && y.calls == map[1 := ModeNow(LookUp(1, true))] && IsDriver(y.s, DriverMode)
    ensures Reached(z) && z.calls == BUSY && IsDriver(z.s, DriverMode)
  {
    ReachedStep(y, Advance(1));
    if Get(y.s.redis, 1).Some? {
      z := Happen(y, Advance(1));
      assert z.calls == BUSY;
    } else {
      var z1 := System(y.s, map[1 := ModeNow(ReadProfile(1, true))]);
      assert Happen(y, Advance(1)) == z1;
      z := AProfileRead(z1);
    }
  }

  lemma AProfileRead(y: System) returns (z: System)
    requires Reached(y) && y.calls == map[1 := ModeNow(ReadProfile(1, true))] && IsDriver(y.s, DriverMode)
    ensures Reached(z) && z.calls == BUSY && IsDriver(z.s, DriverMode)
  {
    ReachedStep(y, Advance(1));
    var z1 := System(y.s, map[1 := ModeNow(FillCache(1, true, Some(I.Identity(7, 1))))]);
    assert Happen(y, Advance(1)) == z1;
    z := ACacheFilled(z1);
  }

  lemma ACacheFilled(y: System) returns (z: System)
    requires Reached(y) && IsDriver(y.s, DriverMode)
    requires y.calls == map[1 := ModeNow(FillCache(1, true, Some(I.Identity(7, 1))))]
    ensures Reached(z) && z.calls == BUSY && IsDriver(z.s, DriverMode)
  {
    ReachedStep(y, Advance(1));
    z := Happen(y, Advance(1));
    FillKeepsDriver(y.s, DriverMode);
    assert z.calls == BUSY;
  }

  lemma FillKeepsDriver(s: State, mode: Mode)
    requires IsDriver(s, mode)
    ensures IsDriver(NextMode(s, FillCache(1, true, Some(I.Identity(7, 1)))).s, mode)
  {
    V.FlagsKeepSchema(s, NextMode(s, FillCache(1, true, Some(I.Identity(7, 1)))).s);
  }

  lemma SwitchKeepsOffline(s: State)
    requires IsDriver(s, DriverMode)
    ensures var s' := SetActiveProfile(s, 1, RiderMode).state; 7 in s'.profiles && !s'.profiles[7].isOnline
  {
  }

  lemma SwitchEffect(s: State)
    requires IsDriver(s, DriverMode)
    ensures IsDriver(SetActiveProfile(s, 1, RiderMode).state, RiderMode)
  {
    SwitchKeepsOffline(s);
    SwitchKeepsSchema(s, 1, RiderMode);
    SwitchSetsMode(s, 1, RiderMode);
  }

  lemma SwitchSetsMode(s: State, user: UserId, mode: Mode)
    requires Schema(s) && user in s.users && (mode == DriverMode ==> user in s.profileByUser)
    ensures var s' := SetActiveProfile(s, user, mode).state;
      s'.users == s.users[user := mode] && V.OnlyFlags(s, s')
  {
    V.SwitchOnlyFlag(s, user, mode);
  }

  lemma SwitchKeepsSchema(s: State, user: UserId, mode: Mode)
    requires Schema(s) && user in s.users
    ensures Schema(SetActiveProfile(s, user, mode).state)
  {
    V.SwitchOnlyFlag(s, user, mode);
    V.FlagsKeepSchema(s, SetActiveProfile(s, user, mode).state);
  }

  lemma ACrossedSwitch() returns (y: System)
    ensures Reached(y) && y.calls == BUSY && IsDriver(y.s, RiderMode)
  {
    var y0 := AnOnlineSwitch();
    SwitchEffect(y0.s);
    var s1 := SetActiveProfile(y0.s, 1, RiderMode).state;
    ReachedTo(y0, 2, DoSetActiveProfile(1, RiderMode), s1);
    y := System(s1, BUSY);
  }

  lemma FlagEffect(s: State)
    requires IsDriver(s, RiderMode)
    ensures var s' := SetFlag(s, 1, true); 1 in s'.users && s'.users[1] == RiderMode && IsOnline(s', 1)
  {
  }

  /**
   * Level B, and nothing dies: an online switch past its guard, crossed by a
   * whole switch to rider mode, leaves a driver on line in rider mode.
   */
  lemma SwitchesCanCross()
    ensures exists y ::
      Reached(y) && y.calls == map[] && 1 in y.s.users && y.s.users[1] == RiderMode && IsOnline(y.s, 1)
  {
    var y0 := ACrossedSwitch();
    FlagEffect(y0.s);
    ReachedStep(y0, Advance(1));
    var y := System(SetFlag(y0.s, 1, true), map[]);
    assert y0.calls - {1} == map[];
  }
}
