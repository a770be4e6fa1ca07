/** Level A: what each call means for the calls after it. */
module SessionEffects {
  import opened Common
  import opened Sessions
  import opened SessionInvariant

  lemma LiveAfterRefresh(tokens: map<Token, TokenRow>, token: Token, next: Token, row: TokenRow, user: Phone)
    requires token in tokens && next !in tokens && !row.revoked && row.user == tokens[token].user
    ensures Live(Revoke(tokens, {token})[next := row], user)
      == if user == row.user then Live(tokens, user) - {token} + {next} else Live(tokens, user)
  {
  }

  lemma SwapKeepsSize(live: set<Token>, token: Token, next: Token)
    requires token in live && next !in live
    ensures |live - {token} + {next}| == |live|
  {
  }

  /** A refresh swaps one live token for another of the same user, and touches no one else's. */
  lemma RefreshSwapsOne(s: State, token: Token, other: Phone)
    requires Valid(s) && Accepts(s, token)
    ensures var user := s.tokens[token].user; var s' := Refresh(s, token).state;
      && Refresh(s, token).answer == Pair(user, s.drawn)
      && Live(s'.tokens, user) == Live(s.tokens, user) - {token} + {s.drawn}
      && |Live(s'.tokens, user)| == |Live(s.tokens, user)|
      && (other != user ==> Live(s'.tokens, other) == Live(s.tokens, other))
  {
    RefreshAges(s, token);
    var user := s.tokens[token].user;
    var row := TokenRow(user, s.now + s.refreshTtl, false);
    LiveAfterRefresh(s.tokens, token, s.drawn, row, user);
    LiveAfterRefresh(s.tokens, token, s.drawn, row, other);
    SwapKeepsSize(Live(s.tokens, user), token, s.drawn);
  }

  /** After a refresh the old token is spent; the new one works until its expiry and not after. */
  lemma RefreshThenRefresh(s: State, token: Token, later: Millis)
    requires Valid(s) && Accepts(s, token)
    ensures var s' := Refresh(s, token).state.(now := later);
      && Refresh(s', token).answer == Failed(Unauthorized)
      && (Refresh(s', s.drawn).answer == Pair(s.tokens[token].user, s'.drawn) <==> later <= s.now + s.refreshTtl)
  {
    RefreshAges(s, token);
  }

  /** A refused refresh changes nothing. */
  lemma RefusalIsQuiet(s: State, token: Token)
    requires Valid(s)
    ensures Refresh(s, token).answer.Failed? <==> !Accepts(s, token)
    ensures Refresh(s, token).answer.Failed? ==> Refresh(s, token).state == s
  {
    if Accepts(s, token) { RefreshAges(s, token); }
  }

  /** Logging out ends one session and no other. */
  lemma LogoutEndsOne(s: State, token: Token, other: Token)
    ensures Accepts(Logout(s, token).state, other) <==> Accepts(s, other) && other != token
  {
  }

  /** After a request only its code works, until its expiry, whatever codes came before. */
  lemma ForgotReplaces(s: State, phone: Phone, code: string, later: Millis, tried: string, newPassword: Password)
    requires Valid(s) && phone in s.users
    ensures var s' := Forgot(s, phone, code).state;
      Reset(s'.(now := later), phone, tried, newPassword).answer == Done <==> tried == code && later < s.now + s.codeTtl
  {
    ForgotAges(s, phone, code);
    var s' := Forgot(s, phone, code).state.(now := later);
    if tried == code && later < s.now + s.codeTtl {
      assert s.drawn in Matching(s', phone, tried);
    }
    forall c | c in Matching(s', phone, tried) ensures c == s.drawn {}
  }

  /**
   * A reset ends every session of its user and uses up every code; the new
   * password signs in and no other does. Other users are untouched.
   */
  lemma ResetEndsSessions(s: State, phone: Phone, code: string, newPassword: Password)
    requires Valid(s) && Reset(s, phone, code, newPassword).answer == Done
    ensures var s' := Reset(s, phone, code, newPassword).state;
      && Live(s'.tokens, phone) == {} && Unused(s'.codes, phone) == {}
      && (forall t :: Accepts(s', t) <==> Accepts(s, t) && s.tokens[t].user != phone)
      && (forall p :: Login(s', phone, p).answer.Pair? <==> p == newPassword)
      && (forall u, p :: u != phone ==> (Login(s', u, p).answer.Pair? <==> Login(s, u, p).answer.Pair?))
  {
    var id := FindCode(s, phone, code).value;
    var s' := Reset(s, phone, code, newPassword).state;
    forall c | c in Unused(s'.codes, phone) ensures false {
      OneUnused(s, c, id);
    }
  }

  /** At most one unused code per user. */
  lemma OneUnused(s: State, c: CodeId, d: CodeId)
    requires Valid(s) && c in s.codes && d in Unused(s.codes, s.codes[c].user) && !s.codes[c].used
    ensures c == d
  {
    assert CodeOk(s, c) && CodeOk(s, d);
    var user := s.codes[c].user;
    var i: nat :| i < |s.log| && s.log[i] == CodeIssued(user, c)
      && forall k :: i < k < |s.log| ==> !(s.log[k].CodeIssued? && s.log[k].user == user);
    var j: nat :| j < |s.log| && s.log[j] == CodeIssued(user, d)
      && forall k :: j < k < |s.log| ==> !(s.log[k].CodeIssued? && s.log[k].user == user);
    assert i == j;
  }
}

/**
 * The nightly cleanup, on a clock that does not go back: no call can tell
 * whether it ran.
 */
module SessionCleanup {
  import opened Common
  import opened Sessions

  /** Two systems that differ only in tokens one of them deleted after their expiry. */
  ghost predicate Same(s: State, k: State) {
    && s == k.(tokens := s.tokens)
    && (forall t :: t in s.tokens ==> t in k.tokens && s.tokens[t] == k.tokens[t])
    && (forall t :: t in k.tokens && t !in s.tokens ==> k.tokens[t].expiresAt < k.now)
  }

  lemma SameRefreshes(s: State, k: State, token: Token)
    requires Same(s, k)
    ensures Refresh(s, token).answer == Refresh(k, token).answer
    ensures Same(Refresh(s, token).state, Refresh(k, token).state)
  {
  }

  lemma SameResets(s: State, k: State, phone: Phone, code: string, newPassword: Password)
    requires Same(s, k)
    ensures Reset(s, phone, code, newPassword).answer == Reset(k, phone, code, newPassword).answer
    ensures Same(Reset(s, phone, code, newPassword).state, Reset(k, phone, code, newPassword).state)
  {
    assert Matching(s, phone, code) == Matching(k, phone, code);
  }

  lemma SameAnswers(s: State, k: State, step: Step)
    requires Same(s, k) && !step.DoCleanup?
    ensures Apply(s, step).answer == Apply(k, step).answer
    ensures Same(Apply(s, step).state, Apply(k, step).state)
  {
    match step
    case DoRefresh(token) => SameRefreshes(s, k, token);
    case DoReset(phone, code, newPassword) => SameResets(s, k, phone, code, newPassword);
    case _ =>
  }

  lemma CleanupKeepsSame(s: State, k: State)
    requires Same(s, k)
    ensures Same(Cleanup(s), k)
  {
  }

  /** What the callers of a run are told. */
  ghost function Answers(s: State, steps: seq<Step>): seq<Answer>
    decreases |steps|
  {
    if steps == [] then [] else
    (if steps[0].DoCleanup? || steps[0].Tick? then [] else [Apply(s, steps[0]).answer])
    + Answers(Apply(s, steps[0]).state, steps[1..])
  }

  function WithoutCleanup(steps: seq<Step>): seq<Step>
    decreases |steps|
  {
    if steps == [] then [] else (if steps[0].DoCleanup? then [] else [steps[0]]) + WithoutCleanup(steps[1..])
  }

  lemma {:induction false} SameRuns(s: State, k: State, steps: seq<Step>)
    requires Same(s, k)
    ensures Answers(s, steps) == Answers(k, WithoutCleanup(steps))
    decreases |steps|
  {
    if steps != [] {
      if steps[0].DoCleanup? {
        CleanupKeepsSame(s, k);
        assert WithoutCleanup(steps) == WithoutCleanup(steps[1..]);
        SameRuns(Cleanup(s), k, steps[1..]);
      } else {
        SameAnswers(s, k, steps[0]);
        assert WithoutCleanup(steps)[0] == steps[0] && WithoutCleanup(steps)[1..] == WithoutCleanup(steps[1..]);
        SameRuns(Apply(s, steps[0]).state, Apply(k, steps[0]).state, steps[1..]);
      }
    }
  }

  /** Level A. Every call of every run is answered as if no cleanup had ever run, however often it did. */
  lemma {:induction false} CleanupIsUnobservable(s: State, steps: seq<Step>)
    ensures Answers(s, steps) == Answers(s, WithoutCleanup(steps))
  {
    SameRuns(s, s, steps);
  }

  /**
   * Why the clock matters: at another reading of the clock the cleanup shows
   * exactly for an unrevoked token it deleted and that reading takes for valid.
   */
  lemma CleanupShowsIffClockGoesBack(s: State, token: Token, reading: Millis)
    requires token in s.tokens ==> s.tokens[token].user in s.users
    ensures Refresh(Cleanup(s).(now := reading), token).answer != Refresh(s.(now := reading), token).answer
       <==> token in s.tokens && !s.tokens[token].revoked && reading <= s.tokens[token].expiresAt < s.now
  {
  }

  /** At its very expiry a token still works and the cleanup still spares it. */
  lemma ExpiryInstantIsValid(s: State, token: Token)
    requires token in s.tokens && !s.tokens[token].revoked && s.tokens[token].expiresAt == s.now
    ensures token in Cleanup(s).tokens && Accepts(Cleanup(s), token)
  {
  }
}
