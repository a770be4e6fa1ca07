/**
 * Level B of sessions: exactly which steps keep what Level A promises of
 * tokens and codes, over every run, with runs that lose it.
 */
module SessionSoundness {
  import opened Common
  import opened Sessions
  import opened SessionInvariant
  import opened SessionInterleaving

  // ----------------------------------------------- What Level A promises

  /** A token is taken at most once, not after its logout, and not after a reset since its issue. */
  ghost predicate ProperTake(log: seq<Entry>, trace: seq<Act>, i: nat)
    requires i < |trace| && trace[i].Took? && trace[i].at <= |log|
  {
    !Named(trace[..i], trace[i].token) && !ResetSince(log[..trace[i].at], trace[i].token, trace[i].user)
  }

  ghost predicate Proper(log: seq<Entry>, trace: seq<Act>) {
    forall i: nat {:trigger trace[i]} ::
      i < |trace| && trace[i].Took? ==> trace[i].at <= |log| && ProperTake(log, trace, i)
  }

  /** Every rotated token descended from a sign-in after the latest reset. */
  ghost predicate Lineage(log: seq<Entry>) {
    forall i: nat {:trigger log[i]} :: i < |log| && log[i].Rotated? ==> Descends(log, i, log[i].parent, log[i].user)
  }

  /** The code of a reset was its user's newest, and had changed no password. */
  ghost predicate FineReset(log: seq<Entry>, i: nat)
    requires i < |log| && log[i].PasswordReset?
  {
    Newest(log, i, log[i].user, log[i].id) && !WasUsed(log[..i], log[i].id)
  }

  ghost predicate Fine(log: seq<Entry>) {
    forall i: nat {:trigger log[i]} :: i < |log| && log[i].PasswordReset? ==> FineReset(log, i)
  }

  ghost predicate Sound(y: Sys) {
    Proper(y.s.log, y.trace) && Lineage(y.s.log) && Fine(y.s.log)
  }

  /** What has to be so for the event to keep that: rows and codes as they were read, and no reset on the way. */
  ghost predicate KeepsSound(y: Sys, e: Event) {
    e.Resume? && e.id in y.calls ==>
      match y.calls[e.id]
      case Revoking(token, _) => token in y.s.tokens ==> !y.s.tokens[token].revoked
      case Finding(_, _, _) => true
      case Inserting(_, user, at) => NoReset(y.s.log, at, |y.s.log|, user)
      case Committing(_, code, _) => code in y.s.codes && !y.s.codes[code].used
      case Creating(_, _) => true
      case SigningIn(_, _) => true
  }

  // --------------------------------------------------- Prefixes of the log

  lemma {:induction false} DescendsPrefix(log: seq<Entry>, e: Entry, n: nat, t: Token, user: Phone)
    requires n <= |log|
    ensures Descends(log + [e], n, t, user) <==> Descends(log, n, t, user)
    decreases n
  {
    if Descends(log, n, t, user) {
      DescendsAppended(log, e, n, t, user);
    }
    if Descends(log + [e], n, t, user) {
      var log' := log + [e];
      var j: nat :| j < n && Issues(log'[j], user, t) && NoReset(log', j, n, user)
        && (log'[j].Rotated? ==> Descends(log', j, log'[j].parent, user));
      assert log'[j] == log[j] && NoReset(log, j, n, user) by {
        assert forall i :: 0 <= i < |log| ==> log'[i] == log[i];
      }
      if log[j].Rotated? { DescendsPrefix(log, e, j, log[j].parent, user); }
      assert Issues(log[j], user, t);
    }
  }

  lemma NewestPrefix(log: seq<Entry>, e: Entry, n: nat, user: Phone, c: CodeId)
    requires n <= |log|
    ensures Newest(log + [e], n, user, c) <==> Newest(log, n, user, c)
  {
    var log' := log + [e];
    assert forall i :: 0 <= i < |log| ==> log'[i] == log[i];
    if Newest(log, n, user, c) {
      NewestAppended(log, log', n, user, c);
    }
    if Newest(log', n, user, c) {
      var j: nat :| j < n && log'[j] == CodeIssued(user, c)
        && forall i :: j < i < n ==> !(log'[i].CodeIssued? && log'[i].user == user);
      assert log[j] == CodeIssued(user, c);
    }
  }

  lemma {:induction false} LineageAppended(log: seq<Entry>, e: Entry)
    requires Lineage(log)
    ensures Lineage(log + [e]) <==> (e.Rotated? ==> Descends(log, |log|, e.parent, e.user))
  {
    var log' := log + [e];
    assert log'[|log|] == e;
    forall i: nat | i < |log| && log'[i].Rotated? ensures Descends(log', i, log'[i].parent, log'[i].user) {
      assert log'[i] == log[i];
      DescendsPrefix(log, e, i, log[i].parent, log[i].user);
    }
    if e.Rotated? { DescendsPrefix(log, e, |log|, e.parent, e.user); }
  }

  lemma FineAppended(log: seq<Entry>, e: Entry)
    requires Fine(log)
    ensures Fine(log + [e]) <==> (e.PasswordReset? ==> Newest(log, |log|, e.user, e.id) && !WasUsed(log, e.id))
  {
    var log' := log + [e];
    assert log'[|log|] == e && log'[..|log|] == log;
    forall i: nat | i < |log| && log'[i].PasswordReset? ensures FineReset(log', i) {
      assert log'[i] == log[i] && log'[..i] == log[..i] && FineReset(log, i);
      NewestPrefix(log, e, i, log[i].user, log[i].id);
    }
    if e.PasswordReset? { NewestPrefix(log, e, |log|, e.user, e.id); }
  }

  lemma ProperLonger(log: seq<Entry>, log': seq<Entry>, trace: seq<Act>)
    requires Proper(log, trace) && log <= log'
    ensures Proper(log', trace)
  {
    forall i: nat | i < |trace| && trace[i].Took? ensures trace[i].at <= |log'| && ProperTake(log', trace, i) {
      assert ProperTake(log, trace, i) && log'[..trace[i].at] == log[..trace[i].at];
    }
  }

  lemma ProperAppended(log: seq<Entry>, trace: seq<Act>, a: Act)
    requires Proper(log, trace) && (a.Took? ==> a.at == |log|)
    ensures Proper(log, trace + [a]) <==> (a.Took? ==> !Named(trace, a.token) && !ResetSince(log, a.token, a.user))
  {
    var trace' := trace + [a];
    assert trace'[|trace|] == a && trace'[..|trace|] == trace && log[..|log|] == log;
    forall i: nat | i < |trace| && trace'[i].Took? ensures trace'[i].at <= |log| && ProperTake(log, trace', i) {
      assert trace'[i] == trace[i] && trace'[..i] == trace[..i] && ProperTake(log, trace, i);
    }
    if Proper(log, trace') && a.Took? { assert ProperTake(log, trace', |trace|); }
  }

  // ---------------------------------------------------------- Single steps

  /** A token issued once descends exactly while its user's password has not been reset since. */
  lemma {:induction false} DescendsIff(s: State, t: Token, user: Phone)
    requires IssuesOnce(s) && Lineage(s.log) && IsIssued(s.log, t, user)
    ensures Descends(s.log, |s.log|, t, user) <==> !ResetSince(s.log, t, user)
  {
    var log := s.log;
    var j: nat :| j < |log| && Issues(log[j], user, t);
    forall i: nat | i < |log| && Issues(log[i], user, t) ensures i == j {
      assert IsIssue(log[i]) && IsIssue(log[j]);
    }
    if NoReset(log, j, |log|, user) {
      assert log[j].Rotated? ==> Descends(log, j, log[j].parent, log[j].user);
    }
  }

  /** Since a proper take, the token's issue is reset-free exactly while no reset has come since the take. */
  lemma ResetSinceTake(s: State, trace: seq<Act>, t: Token, user: Phone, at: nat)
    requires IssuesOnce(s) && Proper(s.log, trace) && at <= |s.log|
    requires IsIssued(s.log[..at], t, user) && Took(t, user, at) in trace
    ensures ResetSince(s.log, t, user) <==> !NoReset(s.log, at, |s.log|, user)
  {
    var log := s.log;
    var i: nat :| i < |trace| && trace[i] == Took(t, user, at);
    assert ProperTake(log, trace, i);
    var j: nat :| j < |log[..at]| && Issues(log[..at][j], user, t);
    assert Issues(log[j], user, t) && NoReset(log[..at], j, at, user);
    forall k | j <= k < at ensures !(log[k].PasswordReset? && log[k].user == user) { assert log[..at][k] == log[k]; }
    forall k: nat | k < |log| && Issues(log[k], user, t) ensures k == j {
      assert IsIssue(log[k]) && IsIssue(log[j]);
    }
  }

  lemma TakeIsSoundIff(y: Sys, id: nat)
    requires SystemOk(y) && Sound(y) && id in y.calls && y.calls[id].Revoking?
    ensures Sound(Happen(y, Resume(id))) <==> KeepsSound(y, Resume(id))
  {
    var k := y.calls[id];
    if k.token in y.s.tokens {
      assert TokenStory(y.s, y.trace, k.token) && Remembers(y.s, y.trace, k);
      ProperAppended(y.s.log, y.trace, Took(k.token, k.user, |y.s.log|));
    }
  }

  lemma InsertIsSoundIff(y: Sys, id: nat)
    requires SystemOk(y) && Sound(y) && id in y.calls && y.calls[id].Inserting?
    ensures Sound(Happen(y, Resume(id))) <==> KeepsSound(y, Resume(id))
  {
    var k := y.calls[id];
    var e := Rotated(k.user, k.token, y.s.drawn);
    assert Remembers(y.s, y.trace, k);
    PrefixIssued(y.s.log, k.at, k.token, k.user);
    DescendsIff(y.s, k.token, k.user);
    ResetSinceTake(y.s, y.trace, k.token, k.user, k.at);
    LineageAppended(y.s.log, e);
    FineAppended(y.s.log, e);
    ProperLonger(y.s.log, y.s.log + [e], y.trace);
  }

  lemma PrefixIssued(log: seq<Entry>, n: nat, t: Token, user: Phone)
    requires n <= |log| && IsIssued(log[..n], t, user)
    ensures IsIssued(log, t, user)
  {
    var j: nat :| j < |log[..n]| && Issues(log[..n][j], user, t);
    assert Issues(log[j], user, t);
  }

  lemma CommitIsSoundIff(y: Sys, id: nat)
    requires SystemOk(y) && Sound(y) && id in y.calls && y.calls[id].Committing?
    ensures Sound(Happen(y, Resume(id))) <==> KeepsSound(y, Resume(id))
  {
    var k := y.calls[id];
    var e := PasswordReset(k.phone, k.code);
    assert Remembers(y.s, y.trace, k) && CodeStory(y.s, k.code);
    LineageAppended(y.s.log, e);
    FineAppended(y.s.log, e);
    ProperLonger(y.s.log, y.s.log + [e], y.trace);
  }

  lemma SignInIsSound(y: Sys, id: nat)
    requires SystemOk(y) && Sound(y) && id in y.calls && y.calls[id].SigningIn?
    ensures Sound(Happen(y, Resume(id)))
  {
    var e := SignedIn(y.calls[id].user, y.s.drawn);
    LineageAppended(y.s.log, e);
    FineAppended(y.s.log, e);
    ProperLonger(y.s.log, y.s.log + [e], y.trace);
  }

  lemma BeginIsSound(y: Sys, id: nat, call: Step)
    requires SystemOk(y) && Sound(y)
    ensures Sound(Happen(y, Begin(id, call)))
  {
    var log, log' := y.s.log, Happen(y, Begin(id, call)).s.log;
    if log' != log {
      assert |log'| == |log| + 1 && log' == log + [log'[|log|]] && log'[|log|].CodeIssued?;
      LineageAppended(log, log'[|log|]);
      FineAppended(log, log'[|log|]);
      ProperLonger(log, log', y.trace);
    }
    if call.DoLogout? && call.token in y.s.tokens {
      ProperAppended(log, y.trace, LoggedOut(call.token));
    }
  }

  /**
   * Level B. What Level A promises of tokens and codes survives a step exactly
   * when: a revocation finds its row unrevoked, an insertion comes before any
   * reset since its revocation, and a reset commits with its code still unused.
   */
  lemma SoundIff(y: Sys, e: Event)
    requires SystemOk(y) && Sound(y)
    ensures Sound(Happen(y, e)) <==> KeepsSound(y, e)
  {
    match e
    case Begin(id, call) => BeginIsSound(y, id, call);
    case Crash(_) =>
    case Resume(id) =>
      if id in y.calls {
        match y.calls[id]
        case Revoking(_, _) => TakeIsSoundIff(y, id);
        case Finding(_, _, _) =>
        case Inserting(_, _, _) => InsertIsSoundIff(y, id);
        case Committing(_, _, _) => CommitIsSoundIff(y, id);
        case Creating(_, _) =>
        case SigningIn(_, _) => SignInIsSound(y, id);
      }
  }

  ghost predicate AlwaysSound(y: Sys, events: seq<Event>)
    requires SystemOk(y)
    decreases |events|
  {
    if events == [] then Sound(y) else
    HappenKeepsValid(y, events[0]);
    Sound(y) && AlwaysSound(Happen(y, events[0]), events[1..])
  }

  ghost predicate AllKeepSound(y: Sys, events: seq<Event>)
    requires SystemOk(y)
    decreases |events|
  {
    if events == [] then true else
    HappenKeepsValid(y, events[0]);
    KeepsSound(y, events[0]) && AllKeepSound(Happen(y, events[0]), events[1..])
  }

  lemma {:induction false} AlwaysSoundIff(y: Sys, events: seq<Event>)
    requires SystemOk(y) && Sound(y)
    ensures AlwaysSound(y, events) <==> AllKeepSound(y, events)
    decreases |events|
  {
    if events != [] {
      HappenKeepsValid(y, events[0]);
      SoundIff(y, events[0]);
      if KeepsSound(y, events[0]) { AlwaysSoundIff(Happen(y, events[0]), events[1..]); }
    }
  }

  /** Level B, every run from the empty tables: sound throughout exactly when every step meets its condition. */
  lemma {:induction false} RunIsSoundIff(start: Millis, refreshTtl: nat, codeTtl: nat, events: seq<Event>)
    ensures var y := Sys(Initial(start, refreshTtl, codeTtl), map[], [], []);
      AlwaysSound(y, events) <==> AllKeepSound(y, events)
  {
    AlwaysSoundIff(Sys(Initial(start, refreshTtl, codeTtl), map[], [], []), events);
  }

  // -------------------------------------------------------------- Cleanup

  predicate LeavesAlone(events: seq<Event>, id: nat) {
    forall i :: 0 <= i < |events| ==> events[i] != Resume(id) && events[i] != Crash(id)
  }

  /** Some cleanup of the run reads the clock past an expiry. */
  ghost predicate SweepsPast(y: Sys, events: seq<Event>, expiry: Millis)
    requires SystemOk(y)
    decreases |events|
  {
    if events == [] then false else
    HappenKeepsValid(y, events[0]);
    || (events[0].Begin? && events[0].call.DoCleanup? && expiry < y.s.now)
    || SweepsPast(Happen(y, events[0]), events[1..], expiry)
  }

  /** Only a cleanup deletes a row, one that has expired; nothing else does, or changes its expiry. */
  ghost predicate RowKept(s: State, s': State, t: Token, swept: bool) {
    && (t in s'.tokens ==> t in s.tokens && s'.tokens[t].expiresAt == s.tokens[t].expiresAt)
    && (t in s.tokens ==> (t !in s'.tokens <==> swept && s.tokens[t].expiresAt < s.now))
    && s.drawn <= s'.drawn
  }

  lemma NextKeepsRow(s: State, k: Cont, trace: seq<Act>, t: Token)
    requires t < s.drawn
    ensures RowKept(s, Next(s, k, trace).s, t, false)
  {
  }

  lemma OutsideKeepsRow(s: State, call: Step, t: Token)
    requires t < s.drawn && !IsCall(call)
    ensures RowKept(s, Apply(s, call).state, t, call.DoCleanup?)
  {
  }

  lemma EventKeepsRow(y: Sys, e: Event, t: Token)
    requires SystemOk(y) && t < y.s.drawn
    ensures RowKept(y.s, Happen(y, e).s, t, e.Begin? && e.call.DoCleanup?)
  {
    match e
    case Begin(_, call) => if !IsCall(call) { OutsideKeepsRow(y.s, call, t); }
    case Resume(id) => if id in y.calls { NextKeepsRow(y.s, y.calls[id], y.trace, t); }
    case Crash(_) =>
  }

  lemma OthersLeaveCall(y: Sys, e: Event, id: nat)
    requires id in y.calls && e != Resume(id) && e != Crash(id)
    ensures id in Happen(y, e).calls && Happen(y, e).calls[id] == y.calls[id]
  {
  }

  lemma {:induction false} RunKeepsRowIff(y: Sys, id: nat, events: seq<Event>, t: Token)
    requires SystemOk(y) && id in y.calls && LeavesAlone(events, id) && t in y.s.tokens && t < y.s.drawn
    ensures var z := RunAll(y, events);
      && id in z.calls && z.calls[id] == y.calls[id]
      && (t !in z.s.tokens <==> SweepsPast(y, events, y.s.tokens[t].expiresAt))
    decreases |events|
  {
    if events != [] {
      var m := Happen(y, events[0]);
      HappenKeepsValid(y, events[0]);
      EventKeepsRow(y, events[0], t);
      OthersLeaveCall(y, events[0], id);
      if t in m.s.tokens {
        RunKeepsRowIff(m, id, events[1..], t);
      } else {
        RowStaysAway(m, id, events[1..], t);
      }
    }
  }

  lemma {:induction false} RowStaysAway(y: Sys, id: nat, events: seq<Event>, t: Token)
    requires SystemOk(y) && id in y.calls && LeavesAlone(events, id) && t !in y.s.tokens && t < y.s.drawn
    ensures var z := RunAll(y, events); id in z.calls && z.calls[id] == y.calls[id] && t !in z.s.tokens
    decreases |events|
  {
    if events != [] {
      HappenKeepsValid(y, events[0]);
      EventKeepsRow(y, events[0], t);
      OthersLeaveCall(y, events[0], id);
      RowStaysAway(Happen(y, events[0]), id, events[1..], t);
    }
  }

  /** The call's next step throws: it takes no token and the call is over. */
  ghost predicate Throws(y: Sys, id: nat) {
    id !in Happen(y, Resume(id)).calls && Happen(y, Resume(id)).trace == y.trace
  }

  /**
   * Level B. Whatever happens between a refresh's read and its update, the
   * update throws exactly when some cleanup meanwhile read the clock past the
   * expiry of its token.
   */
  lemma {:induction false} CleanupShowsIffExpired(y: Sys, id: nat, events: seq<Event>)
    requires SystemOk(y) && id in y.calls && y.calls[id].Revoking? && y.calls[id].token in y.s.tokens
    requires LeavesAlone(events, id)
    ensures Throws(RunAll(y, events), id) <==> SweepsPast(y, events, y.s.tokens[y.calls[id].token].expiresAt)
  {
    var t := y.calls[id].token;
    assert TokenStory(y.s, y.trace, t);
    RunKeepsRowIff(y, id, events, t);
    var z := RunAll(y, events);
    assert |Happen(z, Resume(id)).trace| == |z.trace| + if t in z.s.tokens then 1 else 0;
  }

  // -------------------------------------------------- Runs that lose it

  /** Some run reaches the system from empty. */
  ghost predicate Reached(y: Sys) {
    exists events :: FromEmpty(0, 10, 10, events) == y
  }

  lemma {:induction false} RunAllAppend(y: Sys, events: seq<Event>, e: Event)
    requires SystemOk(y)
    ensures RunAll(y, events + [e]) == Happen(RunAll(y, events), e)
    decreases |events|
  {
    HappenKeepsValid(y, (events + [e])[0]);
    if events == [] {
      assert RunAll(Happen(y, e), []) == Happen(y, e);
    } else {
      assert (events + [e])[1..] == events[1..] + [e];
      RunAllAppend(Happen(y, events[0]), events[1..], e);
    }
  }

  lemma ReachedStep(y: Sys, e: Event)
    requires Reached(y)
    ensures Reached(Happen(y, e))
  {
    var events :| FromEmpty(0, 10, 10, events) == y;
    RunAllAppend(Sys(Initial(0, 10, 10), map[], [], []), events, e);
    assert FromEmpty(0, 10, 10, events + [e]) == Happen(y, e);
  }

  // The witnesses: user "a" with password "p", token 0 and reset code 1.

  const SIGNED_IN := SignedIn("a", 0)
  const CODE_ISSUED := CodeIssued("a", 1)

  function With(tokens: map<Token, TokenRow>, codes: map<CodeId, CodeRow>, password: Password, drawn: nat,
                log: seq<Entry>): State
  {
    State(map["a" := password], tokens, codes, 0, drawn, 10, 10, log)
  }

  const LIVE := map[0 := TokenRow("a", 10, false)]
  const FRESH := map[1 := CodeRow("a", "c", 10, false)]
  const START := With(LIVE, FRESH, "p", 2, [SIGNED_IN, CODE_ISSUED])
  const COMMIT := Committing("a", 1, "q")

  const NEW := With(LIVE, map[], "p", 1, [SIGNED_IN])

  const KEYS := [PasswordSet("a", "p"), Opened("a", "p")]
  const CREATED := With(map[], map[], "p", 0, [])

  lemma ANewNumber()
    ensures Reached(Sys(Initial(0, 10, 10), map[0 := Creating("a", "p")], [], []))
  {
    var y0 := Sys(Initial(0, 10, 10), map[], [], []);
    assert FromEmpty(0, 10, 10, []) == y0;
    ReachedStep(y0, Begin(0, DoRegister("a", "p")));
  }

  lemma ARegistration()
    ensures Reached(Sys(CREATED, map[0 := SigningIn("a", "p")], [], [PasswordSet("a", "p")]))
  {
    ANewNumber();
    var y0 := Sys(Initial(0, 10, 10), map[0 := Creating("a", "p")], [], []);
    ReachedStep(y0, Resume(0));
    assert Happen(y0, Resume(0)).keys == [PasswordSet("a", "p")];
  }

  lemma ASignIn()
    ensures Reached(Sys(NEW, map[], [], KEYS))
  {
    ARegistration();
    var y0 := Sys(CREATED, map[0 := SigningIn("a", "p")], [], [PasswordSet("a", "p")]);
    ReachedStep(y0, Resume(0));
    assert SignIn(CREATED, "a").state == NEW;
    assert Happen(y0, Resume(0)) == Sys(NEW, map[], [], KEYS);
  }

  lemma ForgotEffect()
    ensures Forgot(NEW, "a", "c").state == START
  {
    assert UseUp(NEW.codes, Unused(NEW.codes, "a"))[1 := CodeRow("a", "c", 10, false)] == FRESH;
    assert NEW.log + [CODE_ISSUED] == START.log;
  }

  lemma ACode()
    ensures Reached(Sys(START, map[], [], KEYS))
  {
    ASignIn();
    ForgotEffect();
    ReachedStep(Sys(NEW, map[], [], KEYS), Begin(0, DoForgot("a", "c")));
  }

  /** A reset has read the code. */
  lemma AResetReads(calls: map<nat, Cont>, id: nat)
    requires Reached(Sys(START, calls, [], KEYS)) && id !in calls
    ensures Reached(Sys(START, calls[id := COMMIT], [], KEYS))
  {
    assert Matching(START, "a", "c") == {1};
    ReachedStep(Sys(START, calls, [], KEYS), Begin(id, DoReset("a", "c", "q")));
  }

  lemma CommitEffect(s: State)
    ensures Next(s, COMMIT, []).s.log == s.log + [PasswordReset("a", 1)] && Next(s, COMMIT, []).next == None
  {
  }

  /** Level B. A reset can commit after a newer request. */
  lemma ResetCanBeSuperseded()
    ensures exists y :: Reached(y) && y.s.log == [SIGNED_IN, CODE_ISSUED, CodeIssued("a", 2), PasswordReset("a", 1)]
  {
    ACode();
    AResetReads(map[], 1);
    var y1 := Sys(START, map[1 := COMMIT], [], KEYS);
    ReachedStep(y1, Begin(0, DoForgot("a", "d")));
    var y2 := Happen(y1, Begin(0, DoForgot("a", "d")));
    assert y2.s.log == [SIGNED_IN, CODE_ISSUED, CodeIssued("a", 2)];
    ReachedStep(y2, Resume(1));
    CommitEffect(y2.s);
    assert Happen(y2, Resume(1)).s.log == [SIGNED_IN, CODE_ISSUED, CodeIssued("a", 2), PasswordReset("a", 1)];
  }

  /** Level B. Two resets in flight can both commit with one code. */
  lemma CodeCanServeTwice()
    ensures exists y :: Reached(y) && y.s.log == [SIGNED_IN, CODE_ISSUED, PasswordReset("a", 1), PasswordReset("a", 1)]
  {
    ACode();
    AResetReads(map[], 1);
    AResetReads(map[1 := COMMIT], 2);
    var y1 := Sys(START, map[1 := COMMIT, 2 := COMMIT], [], KEYS);
    assert map[1 := COMMIT][2 := COMMIT] == map[1 := COMMIT, 2 := COMMIT];
    ReachedStep(y1, Resume(1));
    CommitEffect(y1.s);
    var y2 := Happen(y1, Resume(1));
    assert y2.s.log == [SIGNED_IN, CODE_ISSUED, PasswordReset("a", 1)] && y2.calls[2] == COMMIT;
    ReachedStep(y2, Resume(2));
    CommitEffect(y2.s);
    assert Happen(y2, Resume(2)).s.log == [SIGNED_IN, CODE_ISSUED, PasswordReset("a", 1), PasswordReset("a", 1)];
  }

  const TOOK := Took(0, "a", 2)
  const TAKEN := With(map[0 := TokenRow("a", 10, true)], FRESH, "p", 2, [SIGNED_IN, CODE_ISSUED])

  /** A refresh has read token 0; then it revokes the row and finds the user. */
  lemma ARefreshReads(calls: map<nat, Cont>, id: nat)
    requires Reached(Sys(START, calls, [], KEYS)) && id !in calls
    ensures Reached(Sys(START, calls[id := Revoking(0, "a")], [], KEYS))
  {
    ReachedStep(Sys(START, calls, [], KEYS), Begin(id, DoRefresh(0)));
  }

  lemma TakeEffect(s: State, trace: seq<Act>)
    requires s == START || s == TAKEN
    ensures Next(s, Revoking(0, "a"), trace) == Progress(TAKEN, Some(Finding(0, "a", 2)), trace + [TOOK])
  {
    assert Revoke(s.tokens, {0}) == TAKEN.tokens;
  }

  lemma ARefreshTakes(s: State, calls: map<nat, Cont>, id: nat, trace: seq<Act>)
    requires s == START || s == TAKEN
    requires Reached(Sys(s, calls, trace, KEYS)) && id in calls && calls[id] == Revoking(0, "a")
    ensures Reached(Sys(TAKEN, calls[id := Inserting(0, "a", 2)], trace + [TOOK], KEYS))
  {
    TakeEffect(s, trace);
    ReachedStep(Sys(s, calls, trace, KEYS), Resume(id));
    ARefreshFinds(calls[id := Finding(0, "a", 2)], id, trace + [TOOK]);
    assert calls[id := Finding(0, "a", 2)][id := Inserting(0, "a", 2)] == calls[id := Inserting(0, "a", 2)];
  }

  lemma ARefreshFinds(calls: map<nat, Cont>, id: nat, trace: seq<Act>)
    requires Reached(Sys(TAKEN, calls, trace, KEYS)) && id in calls && calls[id] == Finding(0, "a", 2)
    ensures Reached(Sys(TAKEN, calls[id := Inserting(0, "a", 2)], trace, KEYS))
  {
    ReachedStep(Sys(TAKEN, calls, trace, KEYS), Resume(id));
  }

  /** A refresh has taken its token when the user's password is reset. */
  lemma AResetCrosses() returns (y: Sys)
    ensures Reached(y) && 1 in y.calls && y.calls[1] == Inserting(0, "a", 2) && y.s.drawn == 2
    ensures y.s.log == [SIGNED_IN, CODE_ISSUED, PasswordReset("a", 1)]
  {
    ACode();
    AResetReads(map[], 2);
    ARefreshReads(map[2 := COMMIT], 1);
    var calls := map[2 := COMMIT][1 := Revoking(0, "a")];
    ARefreshTakes(START, calls, 1, []);
    var y1 := Sys(TAKEN, calls[1 := Inserting(0, "a", 2)], [] + [TOOK], KEYS);
    ReachedStep(y1, Resume(2));
    CommitEffect(y1.s);
    y := Happen(y1, Resume(2));
  }

  /** Level B. A refresh whose user's password is reset before its insertion still inserts. */
  lemma TokenCanOutliveReset()
    ensures exists y :: Reached(y) && y.s.log == [SIGNED_IN, CODE_ISSUED, PasswordReset("a", 1), Rotated("a", 0, 2)]
  {
    var y := AResetCrosses();
    ReachedStep(y, Resume(1));
    assert Happen(y, Resume(1)).s.log == [SIGNED_IN, CODE_ISSUED, PasswordReset("a", 1), Rotated("a", 0, 2)];
  }

  /** Two refreshes have read and taken one token. */
  lemma TwoTakes() returns (y: Sys)
    ensures Reached(y) && y.calls == map[1 := Inserting(0, "a", 2), 2 := Inserting(0, "a", 2)] && y.s == TAKEN
  {
    ACode();
    ARefreshReads(map[], 1);
    ARefreshReads(map[1 := Revoking(0, "a")], 2);
    var calls := map[1 := Revoking(0, "a")][2 := Revoking(0, "a")];
    assert map[][1 := Revoking(0, "a")] == map[1 := Revoking(0, "a")];
    ARefreshTakes(START, calls, 1, []);
    ARefreshTakes(TAKEN, calls[1 := Inserting(0, "a", 2)], 2, [] + [TOOK]);
    y := Sys(TAKEN, calls[1 := Inserting(0, "a", 2)][2 := Inserting(0, "a", 2)], [] + [TOOK] + [TOOK], KEYS);
  }

  /** Level B. Two refreshes in flight can both rotate one token. */
  lemma TokenCanRotateTwice()
    ensures exists y :: Reached(y) && y.s.log == [SIGNED_IN, CODE_ISSUED, Rotated("a", 0, 2), Rotated("a", 0, 3)]
  {
    var y1 := TwoTakes();
    ReachedStep(y1, Resume(1));
    var y2 := Happen(y1, Resume(1));
    assert y2.s.log == [SIGNED_IN, CODE_ISSUED, Rotated("a", 0, 2)];
    assert y2.calls[2] == Inserting(0, "a", 2) && y2.s.drawn == 3;
    ReachedStep(y2, Resume(2));
    assert Happen(y2, Resume(2)).s.log == [SIGNED_IN, CODE_ISSUED, Rotated("a", 0, 2), Rotated("a", 0, 3)];
  }

  /** A refresh is in flight, its token has expired, and a cleanup has run. */
  lemma ASweptRefresh() returns (y: Sys)
    ensures Reached(y) && 1 in y.calls && y.calls[1] == Revoking(0, "a") && 0 !in y.s.tokens
  {
    ACode();
    ARefreshReads(map[], 1);
    var y0 := Sys(START, map[][1 := Revoking(0, "a")], [], KEYS);
    ReachedStep(y0, Begin(0, Tick(11)));
    var y1 := Happen(y0, Begin(0, Tick(11)));
    ReachedStep(y1, Begin(0, DoCleanup));
    y := Happen(y1, Begin(0, DoCleanup));
  }

  /** Level B. A refresh that read its token before the expiry can find the row swept away. */
  lemma RefreshCanThrow()
    ensures exists y :: Reached(y) && 1 in y.calls && y.calls[1] == Revoking(0, "a") && Throws(y, 1)
  {
    var y := ASweptRefresh();
    assert Happen(y, Resume(1)).trace == y.trace;
  }
}
