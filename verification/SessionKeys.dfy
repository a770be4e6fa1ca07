/**
 * Level B: sessions and the passwords they were opened with. A sign-in compares
 * the password in one step and inserts its token in another.
 */
module SessionKeys {
  import opened Common
  import opened Sessions
  import opened SessionInvariant
  import opened SessionInterleaving
  import opened SessionSoundness

  /** The user's password was last set to this. */
  ghost predicate IsCurrent(keys: seq<Key>, user: Phone, password: Password) {
    exists i :: 0 <= i < |keys| && keys[i] == PasswordSet(user, password)
      && forall k :: i < k < |keys| ==> !(keys[k].PasswordSet? && keys[k].user == user)
  }

  /** Every session was opened with the password in force when its token was inserted. */
  ghost predicate Fitting(keys: seq<Key>) {
    forall j {:trigger keys[j]} :: 0 <= j < |keys| && keys[j].Opened? ==>
      IsCurrent(keys[..j], keys[j].user, keys[j].password)
  }

  /** The users table holds the passwords last set. */
  ghost predicate InForce(y: Sys) {
    forall u {:trigger y.s.users[u]} :: u in y.s.users ==> IsCurrent(y.keys, u, y.s.users[u])
  }

  /** What has to be so for the event to keep sessions fitting: a sign-in inserts while its password is in force. */
  predicate KeepsFitting(y: Sys, e: Event) {
    e.Resume? && e.id in y.calls && y.calls[e.id].SigningIn? ==>
      y.calls[e.id].user in y.s.users && y.s.users[y.calls[e.id].user] == y.calls[e.id].password
  }

  lemma CurrentAppended(keys: seq<Key>, k: Key, user: Phone, password: Password)
    ensures IsCurrent(keys + [k], user, password) <==>
      if k.PasswordSet? && k.user == user then k.password == password else IsCurrent(keys, user, password)
  {
    var keys' := keys + [k];
    assert keys'[|keys|] == k && forall i :: 0 <= i < |keys| ==> keys'[i] == keys[i];
    if IsCurrent(keys', user, password) {
      var i :| 0 <= i < |keys'| && keys'[i] == PasswordSet(user, password)
        && forall j :: i < j < |keys'| ==> !(keys'[j].PasswordSet? && keys'[j].user == user);
      assert i < |keys| ==> keys[i] == PasswordSet(user, password);
    }
    if k == PasswordSet(user, password) {
      assert keys'[|keys|] == PasswordSet(user, password);
    } else if !(k.PasswordSet? && k.user == user) && IsCurrent(keys, user, password) {
      var i :| 0 <= i < |keys| && keys[i] == PasswordSet(user, password)
        && forall j :: i < j < |keys| ==> !(keys[j].PasswordSet? && keys[j].user == user);
      assert keys'[i] == PasswordSet(user, password);
    }
  }

  lemma OneCurrent(keys: seq<Key>, user: Phone, p: Password, q: Password)
    requires IsCurrent(keys, user, p) && IsCurrent(keys, user, q)
    ensures p == q
  {
    var i :| 0 <= i < |keys| && keys[i] == PasswordSet(user, p)
      && forall k :: i < k < |keys| ==> !(keys[k].PasswordSet? && keys[k].user == user);
    var j :| 0 <= j < |keys| && keys[j] == PasswordSet(user, q)
      && forall k :: j < k < |keys| ==> !(keys[k].PasswordSet? && keys[k].user == user);
    assert i == j;
  }

  lemma FittingAppended(keys: seq<Key>, k: Key)
    ensures Fitting(keys + [k]) <==> Fitting(keys) && (k.Opened? ==> IsCurrent(keys, k.user, k.password))
  {
    var keys' := keys + [k];
    assert keys'[|keys|] == k && keys'[..|keys|] == keys;
    assert forall j :: 0 <= j < |keys| ==> keys'[j] == keys[j] && keys'[..j] == keys[..j];
    if Fitting(keys') {
      forall j | 0 <= j < |keys| && keys[j].Opened? ensures IsCurrent(keys[..j], keys[j].user, keys[j].password) {
        assert keys'[j].Opened?;
      }
    }
  }

  /** The users a step leaves as they are keep their passwords. */
  lemma StepSetsPasswords(s: State, k: Cont, trace: seq<Act>, u: Phone)
    requires StateOk(s, trace) && Remembers(s, trace, k) && u in Next(s, k, trace).s.users
    ensures var key := KeyOf(s, k);
      if key != [] && key[0].PasswordSet? && key[0].user == u
      then Next(s, k, trace).s.users[u] == key[0].password
      else u in s.users && Next(s, k, trace).s.users[u] == s.users[u]
  {
  }

  lemma ResumeKeepsInForce(y: Sys, id: nat)
    requires SystemOk(y) && InForce(y) && id in y.calls
    ensures InForce(Happen(y, Resume(id)))
  {
    var z := Happen(y, Resume(id));
    var k := y.calls[id];
    forall u | u in z.s.users ensures IsCurrent(z.keys, u, z.s.users[u]) {
      StepSetsPasswords(y.s, k, y.trace, u);
      if KeyOf(y.s, k) != [] {
        CurrentAppended(y.keys, KeyOf(y.s, k)[0], u, z.s.users[u]);
        assert z.keys == y.keys + [KeyOf(y.s, k)[0]];
      } else {
        assert z.keys == y.keys;
      }
    }
  }

  lemma OutsideKeepsUsers(s: State, call: Step)
    requires !IsCall(call)
    ensures Apply(s, call).state.users == s.users
  {
  }

  lemma HappenKeepsInForce(y: Sys, e: Event)
    requires SystemOk(y) && InForce(y)
    ensures InForce(Happen(y, e))
  {
    match e
    case Begin(_, call) => if !IsCall(call) { OutsideKeepsUsers(y.s, call); }
    case Resume(id) => if id in y.calls { ResumeKeepsInForce(y, id); }
    case Crash(_) =>
  }

  /** Level B. Sessions go on fitting through an event exactly when KeepsFitting says so. */
  lemma FittingIff(y: Sys, e: Event)
    requires SystemOk(y) && InForce(y)
    ensures Fitting(Happen(y, e).keys) <==> Fitting(y.keys) && KeepsFitting(y, e)
  {
    if e.Resume? && e.id in y.calls && KeyOf(y.s, y.calls[e.id]) != [] {
      var key := KeyOf(y.s, y.calls[e.id])[0];
      assert Happen(y, e).keys == y.keys + [key];
      FittingAppended(y.keys, key);
      if key.Opened? {
        assert Remembers(y.s, y.trace, y.calls[e.id]) && y.calls[e.id].user in y.s.users;
        if IsCurrent(y.keys, key.user, key.password) {
          OneCurrent(y.keys, key.user, key.password, y.s.users[key.user]);
        }
      }
    } else {
      assert Happen(y, e).keys == y.keys;
    }
  }

  ghost predicate AllKeepFitting(y: Sys, events: seq<Event>)
    requires SystemOk(y)
    decreases |events|
  {
    if events == [] then true else
    HappenKeepsValid(y, events[0]);
    KeepsFitting(y, events[0]) && AllKeepFitting(Happen(y, events[0]), events[1..])
  }

  lemma {:induction false} FittingOverRunIff(y: Sys, events: seq<Event>)
    requires SystemOk(y) && InForce(y)
    ensures Fitting(RunAll(y, events).keys) <==> Fitting(y.keys) && AllKeepFitting(y, events)
    decreases |events|
  {
    if events != [] {
      HappenKeepsValid(y, events[0]);
      HappenKeepsInForce(y, events[0]);
      FittingIff(y, events[0]);
      FittingOverRunIff(Happen(y, events[0]), events[1..]);
    }
  }

  /**
   * Level B, every run from the empty tables: every session was opened with the
   * password in force when its token was inserted, if and only if no sign-in
   * inserts its token after its user's password has changed from the one it
   * compared.
   */
  lemma {:induction false} RunIsFittingIff(start: Millis, refreshTtl: nat, codeTtl: nat, events: seq<Event>)
    ensures Fitting(FromEmpty(start, refreshTtl, codeTtl, events).keys) <==>
      AllKeepFitting(Sys(Initial(start, refreshTtl, codeTtl), map[], [], []), events)
  {
    FittingOverRunIff(Sys(Initial(start, refreshTtl, codeTtl), map[], [], []), events);
  }

  /** Then a session opened since the user's latest reset or registration used the password that it set. */
  lemma NewPasswordOpens(keys: seq<Key>, i: nat, j: nat)
    requires Fitting(keys) && i < j < |keys| && keys[i].PasswordSet? && keys[j].Opened? && keys[j].user == keys[i].user
    requires forall k :: i < k < j ==> !(keys[k].PasswordSet? && keys[k].user == keys[i].user)
    ensures keys[j].password == keys[i].password
  {
    var before := keys[..j];
    assert before[i] == PasswordSet(keys[j].user, keys[i].password);
    OneCurrent(before, keys[j].user, keys[i].password, keys[j].password);
  }

  // ------------------------------------------------------------ The witness

  /** A login has compared the old password; a reset of it is in flight. */
  lemma AStaleLogin() returns (y: Sys)
    ensures Reached(y) && y == Sys(START, map[1 := SigningIn("a", "p"), 2 := COMMIT], [], KEYS)
  {
    ACode();
    ReachedStep(Sys(START, map[], [], KEYS), Begin(1, DoLogin("a", "p")));
    AResetReads(map[1 := SigningIn("a", "p")], 2);
    y := Sys(START, map[1 := SigningIn("a", "p")][2 := COMMIT], [], KEYS);
  }

  lemma TheResetCommits() returns (y: Sys)
    ensures Reached(y) && y.calls == map[1 := SigningIn("a", "p")] && y.keys == KEYS + [PasswordSet("a", "q")]
    ensures y.s.users == map["a" := "q"] && y.s.log == [SIGNED_IN, CODE_ISSUED, PasswordReset("a", 1)]
    ensures y.s.drawn == 2 && y.s.now == 0
  {
    var y0 := AStaleLogin();
    ReachedStep(y0, Resume(2));
    CommitEffect(y0.s);
    y := Happen(y0, Resume(2));
  }

  /** Level B. A login that compared the old password before a reset opens a session after it. */
  lemma OldPasswordCanOpen()
    ensures exists y ::
      && Reached(y) && !Fitting(y.keys) && Accepts(y.s, 2)
      && y.s.log == [SIGNED_IN, CODE_ISSUED, PasswordReset("a", 1), SignedIn("a", 2)]
      && y.keys == KEYS + [PasswordSet("a", "q"), Opened("a", "p")]
  {
    var y0 := TheResetCommits();
    ReachedStep(y0, Resume(1));
    var y := Happen(y0, Resume(1));
    assert y.keys == KEYS + [PasswordSet("a", "q"), Opened("a", "p")];
    FittingAppended(y0.keys, Opened("a", "p"));
    CurrentAppended(KEYS, PasswordSet("a", "q"), "a", "p");
    assert y.s.log == [SIGNED_IN, CODE_ISSUED, PasswordReset("a", 1), SignedIn("a", 2)];
  }
}
