/**
 * Sign-in, refresh-token rotation, logout, password reset and the nightly
 * cleanup, one function per call. Passwords, tokens and codes stand for their
 * hashes; the n-th random value drawn is n, so no draw repeats.
 */
module Sessions {
  import opened Common

  // ---------------------------------------------------------------- Tables

  type Phone = string  // unique and never changed, so it names the user
  type Password = string
  type Token = nat
  type CodeId = nat
  type Millis = int

  datatype TokenRow = TokenRow(user: Phone, expiresAt: Millis, revoked: bool)
  datatype CodeRow = CodeRow(user: Phone, code: string, expiresAt: Millis, used: bool)

  /** History of what was issued and changed. */
  datatype Entry =
    | SignedIn(user: Phone, token: Token)
    | Rotated(user: Phone, parent: Token, token: Token)
    | CodeIssued(user: Phone, id: CodeId)
    | PasswordReset(user: Phone, id: CodeId)

  datatype State = State(
    users: map<Phone, Password>,
    tokens: map<Token, TokenRow>,
    codes: map<CodeId, CodeRow>,
    now: Millis,
    drawn: nat,
    refreshTtl: nat,  // JWT_REFRESH_EXPIRES_IN
    codeTtl: nat,     // PASSWORD_RESET_CODE_EXPIRES_IN
    log: seq<Entry>)

  datatype Answer = Pair(user: Phone, refreshToken: Token) | Done | Failed(reply: Reply)

  datatype Outcome = Outcome(state: State, answer: Answer)

  // ---------------------------------------------------------------- Tokens

  function Live(tokens: map<Token, TokenRow>, user: Phone): set<Token> {
    set t | t in tokens && tokens[t].user == user && !tokens[t].revoked
  }

  function Revoke(tokens: map<Token, TokenRow>, which: set<Token>): map<Token, TokenRow> {
    map t | t in tokens :: if t in which then tokens[t].(revoked := true) else tokens[t]
  }

  /** issueTokenPair, for its refresh token. */
  function IssuePair(s: State, user: Phone): State {
    s.(tokens := s.tokens[s.drawn := TokenRow(user, s.now + s.refreshTtl, false)], drawn := s.drawn + 1)
  }

  function SignIn(s: State, user: Phone): Outcome {
    Outcome(IssuePair(s, user).(log := s.log + [SignedIn(user, s.drawn)]), Pair(user, s.drawn))
  }

  function Register(s: State, phone: Phone, password: Password): Outcome {
    if phone in s.users then Outcome(s, Failed(Conflict))
    else SignIn(s.(users := s.users[phone := password]), phone)
  }

  function Login(s: State, phone: Phone, password: Password): Outcome {
    if phone !in s.users || s.users[phone] != password then Outcome(s, Failed(Unauthorized)) else SignIn(s, phone)
  }

  predicate Accepts(s: State, token: Token) {
    token in s.tokens && !s.tokens[token].revoked && !(s.tokens[token].expiresAt < s.now)
  }

  function Refresh(s: State, token: Token): Outcome {
    if !Accepts(s, token) then Outcome(s, Failed(Unauthorized)) else
    var user := s.tokens[token].user;
    var s1 := s.(tokens := Revoke(s.tokens, {token}));
    if user !in s.users then Outcome(s1, Failed(Unauthorized)) else
    Outcome(IssuePair(s1, user).(log := s.log + [Rotated(user, token, s.drawn)]), Pair(user, s.drawn))
  }

  function Logout(s: State, token: Token): Outcome {
    Outcome(s.(tokens := Revoke(s.tokens, {token})), Done)
  }

  /** removeExpiredRefreshTokens */
  function Cleanup(s: State): State {
    s.(tokens := map t | t in s.tokens && !(s.tokens[t].expiresAt < s.now) :: s.tokens[t])
  }

  // ----------------------------------------------------------------- Codes

  function Unused(codes: map<CodeId, CodeRow>, user: Phone): set<CodeId> {
    set c | c in codes && codes[c].user == user && !codes[c].used
  }

  function UseUp(codes: map<CodeId, CodeRow>, which: set<CodeId>): map<CodeId, CodeRow> {
    map c | c in codes :: if c in which then codes[c].(used := true) else codes[c]
  }

  /** forgotPassword; the code is any six digits, drawn before or not. */
  function Forgot(s: State, phone: Phone, code: string): Outcome {
    if phone !in s.users then Outcome(s, Done) else
    var row := CodeRow(phone, code, s.now + s.codeTtl, false);
    Outcome(s.(codes := UseUp(s.codes, Unused(s.codes, phone))[s.drawn := row],
               drawn := s.drawn + 1,
               log := s.log + [CodeIssued(phone, s.drawn)]), Done)
  }

  function Matching(s: State, phone: Phone, code: string): set<CodeId> {
    set c | c in s.codes
      && s.codes[c] == CodeRow(phone, code, s.codes[c].expiresAt, false) && s.codes[c].expiresAt > s.now
  }

  ghost function Any(ids: set<CodeId>): (c: CodeId)
    requires ids != {}
    ensures c in ids
  {
    var c :| c in ids;
    c
  }

  /** The first read of resetPassword; findFirst may pick any match. */
  ghost function FindCode(s: State, phone: Phone, code: string): (r: Check<CodeId>)
    ensures r.Pass? ==> r.value in Matching(s, phone, code)
    ensures r.Fail? ==> r.reply == Unauthorized && (phone !in s.users || Matching(s, phone, code) == {})
  {
    if phone !in s.users || Matching(s, phone, code) == {} then Fail(Unauthorized) else
    Pass(Any(Matching(s, phone, code)))
  }

  /** The transaction of resetPassword. */
  function CommitReset(s: State, phone: Phone, id: CodeId, newPassword: Password): State {
    s.(codes := UseUp(s.codes, {id}),
       users := s.users[phone := newPassword],
       tokens := Revoke(s.tokens, Live(s.tokens, phone)),
       log := s.log + [PasswordReset(phone, id)])
  }

  ghost function Reset(s: State, phone: Phone, code: string, newPassword: Password): Outcome {
    match FindCode(s, phone, code)
    case Fail(reply) => Outcome(s, Failed(reply))
    case Pass(id) => Outcome(CommitReset(s, phone, id, newPassword), Done)
  }

  // ---------------------------------------------------------- Whole system

  datatype Step =
    | DoRegister(phone: Phone, password: Password)
    | DoLogin(phone: Phone, password: Password)
    | DoRefresh(token: Token)
    | DoLogout(token: Token)
    | DoForgot(phone: Phone, code: string)
    | DoReset(phone: Phone, code: string, newPassword: Password)
    | DoCleanup
    | Tick(ms: nat)

  ghost function Apply(s: State, step: Step): Outcome {
    match step
    case DoRegister(phone, password) => Register(s, phone, password)
    case DoLogin(phone, password) => Login(s, phone, password)
    case DoRefresh(token) => Refresh(s, token)
    case DoLogout(token) => Logout(s, token)
    case DoForgot(phone, code) => Forgot(s, phone, code)
    case DoReset(phone, code, newPassword) => Reset(s, phone, code, newPassword)
    case DoCleanup => Outcome(Cleanup(s), Done)
    case Tick(ms) => Outcome(s.(now := s.now + ms), Done)
  }

  function Initial(now: Millis, refreshTtl: nat, codeTtl: nat): State {
    State(map[], map[], map[], now, 0, refreshTtl, codeTtl, [])
  }
}

/**
 * Level A: the lineage of sessions, the single use of tokens and codes, and
 * what each call does to the user's other sessions.
 */
module SessionInvariant {
  import opened Common
  import opened Sessions

  ghost predicate NoReset(log: seq<Entry>, from: nat, to: nat, user: Phone) {
    forall i :: from <= i < to <= |log| ==> !(log[i].PasswordReset? && log[i].user == user)
  }

  /** The entry that issued a token to a user. */
  predicate Issues(e: Entry, user: Phone, t: Token) {
    (e.SignedIn? || e.Rotated?) && e.user == user && e.token == t
  }

  /**
   * Before entry n the token traces back, through rotations, to a sign-in of
   * the user, and the user's password has not been reset since.
   */
  ghost predicate Descends(log: seq<Entry>, n: nat, t: Token, user: Phone)
    requires n <= |log|
    decreases n
  {
    exists j: nat :: j < n && Issues(log[j], user, t) && NoReset(log, j, n, user)
      && (log[j].Rotated? ==> Descends(log, j, log[j].parent, user))
  }

  lemma {:induction false} DescendsAppended(log: seq<Entry>, e: Entry, n: nat, t: Token, user: Phone)
    requires n <= |log| && Descends(log, n, t, user)
    ensures Descends(log + [e], n, t, user)
    decreases n
  {
    var j: nat :| j < n && Issues(log[j], user, t) && NoReset(log, j, n, user)
      && (log[j].Rotated? ==> Descends(log, j, log[j].parent, user));
    if log[j].Rotated? {
      DescendsAppended(log, e, j, log[j].parent, user);
    }
    assert Issues((log + [e])[j], user, t);
  }

  lemma {:induction false} DescendsLater(log: seq<Entry>, n: nat, m: nat, t: Token, user: Phone)
    requires n <= m <= |log| && Descends(log, n, t, user) && NoReset(log, n, m, user)
    ensures Descends(log, m, t, user)
  {
    var j: nat :| j < n && Issues(log[j], user, t) && NoReset(log, j, n, user)
      && (log[j].Rotated? ==> Descends(log, j, log[j].parent, user));
    assert Issues(log[j], user, t) && NoReset(log, j, m, user);
  }

  // ------------------------------------------------------------- Invariant

  ghost predicate TokenOk(s: State, t: Token)
    requires t in s.tokens
  {
    && t < s.drawn && s.tokens[t].user in s.users
    && (!s.tokens[t].revoked ==> Descends(s.log, |s.log|, t, s.tokens[t].user))
  }

  /** A rotation accepted a live token, once and for all. */
  ghost predicate RotationOk(s: State, i: nat)
    requires i < |s.log| && s.log[i].Rotated?
  {
    var e := s.log[i];
    && e.parent < s.drawn && Descends(s.log, i, e.parent, e.user)
    && (e.parent in s.tokens ==> s.tokens[e.parent].revoked)
  }

  ghost predicate Newest(log: seq<Entry>, n: nat, user: Phone, id: CodeId)
    requires n <= |log|
  {
    exists j: nat :: j < n && log[j] == CodeIssued(user, id)
      && forall i :: j < i < n ==> !(log[i].CodeIssued? && log[i].user == user)
  }

  ghost predicate CodeOk(s: State, c: CodeId)
    requires c in s.codes
  {
    c < s.drawn && (!s.codes[c].used ==> Newest(s.log, |s.log|, s.codes[c].user, c))
  }

  ghost predicate ResetOk(s: State, i: nat)
    requires i < |s.log| && s.log[i].PasswordReset?
  {
    var e := s.log[i];
    Newest(s.log, i, e.user, e.id) && e.id in s.codes && s.codes[e.id].used
  }

  ghost predicate EntriesOnce(log: seq<Entry>) {
    forall i, j :: 0 <= i < j < |log| ==>
      && !(log[i].Rotated? && log[j].Rotated? && log[i].parent == log[j].parent)
      && !(log[i].PasswordReset? && log[j].PasswordReset? && log[i].id == log[j].id)
  }

  ghost predicate RowsOk(s: State) {
    && (forall t {:trigger TokenOk(s, t)} :: t in s.tokens ==> TokenOk(s, t))
    && (forall c {:trigger CodeOk(s, c)} :: c in s.codes ==> CodeOk(s, c))
  }

  ghost predicate EntriesOk(s: State) {
    && (forall i: nat {:trigger RotationOk(s, i)} :: i < |s.log| && s.log[i].Rotated? ==> RotationOk(s, i))
    && (forall i: nat {:trigger ResetOk(s, i)} :: i < |s.log| && s.log[i].PasswordReset? ==> ResetOk(s, i))
    && EntriesOnce(s.log)
  }

  ghost predicate Valid(s: State) {
    RowsOk(s) && EntriesOk(s)
  }

  // ------------------------------------------------------------ Preserved

  /** At most one entry is added, rows only get revoked, used or deleted, and new ones get new ids. */
  ghost predicate Ages(s: State, s': State) {
    && (s'.log == s.log || (|s'.log| == |s.log| + 1 && s'.log[..|s.log|] == s.log))
    && s.drawn <= s'.drawn && s.users.Keys <= s'.users.Keys
    && (forall t :: t in s'.tokens && t < s.drawn ==>
          && t in s.tokens && s'.tokens[t].user == s.tokens[t].user && (s.tokens[t].revoked ==> s'.tokens[t].revoked))
    && (forall c :: c in s.codes ==>
          && c in s'.codes && s'.codes[c].user == s.codes[c].user && (s.codes[c].used ==> s'.codes[c].used))
  }

  lemma TokenStays(s: State, s': State, t: Token)
    requires Ages(s, s') && t in s.tokens && TokenOk(s, t) && t in s'.tokens
    requires !s'.tokens[t].revoked ==> NoReset(s'.log, |s.log|, |s'.log|, s.tokens[t].user)
    ensures TokenOk(s', t)
  {
    if !s'.tokens[t].revoked && s'.log != s.log {
      var e := s'.log[|s.log|];
      assert s'.log == s.log + [e];
      DescendsAppended(s.log, e, |s.log|, t, s.tokens[t].user);
      DescendsLater(s'.log, |s.log|, |s'.log|, t, s.tokens[t].user);
    }
  }

  lemma CodeStays(s: State, s': State, c: CodeId)
    requires Ages(s, s') && c in s.codes && CodeOk(s, c)
    requires !s'.codes[c].used && s'.log != s.log ==>
      !(s'.log[|s.log|].CodeIssued? && s'.log[|s.log|].user == s.codes[c].user)
    ensures CodeOk(s', c)
  {
    if !s'.codes[c].used && s'.log != s.log {
      NewestAppended(s.log, s'.log, |s.log|, s.codes[c].user, c);
      var j: nat :| j < |s.log| && s'.log[j] == CodeIssued(s.codes[c].user, c)
        && forall i :: j < i < |s.log| ==> !(s'.log[i].CodeIssued? && s'.log[i].user == s.codes[c].user);
      assert s'.log[j] == CodeIssued(s.codes[c].user, c);
    }
  }

  lemma NewestAppended(log: seq<Entry>, log': seq<Entry>, n: nat, user: Phone, id: CodeId)
    requires n <= |log| <= |log'| && log'[..|log|] == log && Newest(log, n, user, id)
    ensures Newest(log', n, user, id)
  {
    var j: nat :| j < n && log[j] == CodeIssued(user, id)
      && forall i :: j < i < n ==> !(log[i].CodeIssued? && log[i].user == user);
    assert forall i :: 0 <= i < |log| ==> log'[..|log|][i] == log'[i];
    assert log'[j] == CodeIssued(user, id);
  }

  lemma RotationStays(s: State, s': State, i: nat)
    requires Ages(s, s') && i < |s.log| && s.log[i].Rotated? && RotationOk(s, i)
    ensures s'.log[i] == s.log[i] && RotationOk(s', i)
  {
    if s'.log != s.log {
      var e := s'.log[|s.log|];
      assert s'.log == s.log + [e];
      DescendsAppended(s.log, e, i, s.log[i].parent, s.log[i].user);
    }
  }

  lemma ResetStays(s: State, s': State, i: nat)
    requires Ages(s, s') && i < |s.log| && s.log[i].PasswordReset? && ResetOk(s, i)
    ensures s'.log[i] == s.log[i] && ResetOk(s', i)
  {
    if s'.log != s.log {
      assert s'.log == s.log + [s'.log[|s.log|]];
      NewestAppended(s.log, s'.log, i, s.log[i].user, s.log[i].id);
    }
  }

  /** An entry that accepts a token or a code finds it live, so it is its first. */
  lemma EntriesStay(s: State, s': State)
    requires Valid(s) && Ages(s, s')
    requires s'.log != s.log ==>
      var e := s'.log[|s.log|];
      && (e.Rotated? ==> RotationOk(s', |s.log|) && e.parent in s.tokens && !s.tokens[e.parent].revoked)
      && (e.PasswordReset? ==> ResetOk(s', |s.log|) && e.id in s.codes && !s.codes[e.id].used)
    ensures EntriesOk(s')
  {
    if s'.log != s.log { assert s'.log == s.log + [s'.log[|s.log|]]; }
    forall i: nat | i < |s'.log| && s'.log[i].Rotated? ensures RotationOk(s', i) {
      if i < |s.log| { assert RotationOk(s, i); RotationStays(s, s', i); }
    }
    forall i: nat | i < |s'.log| && s'.log[i].PasswordReset? ensures ResetOk(s', i) {
      if i < |s.log| { assert ResetOk(s, i); ResetStays(s, s', i); }
    }
    forall i, j | 0 <= i < j < |s'.log|
      ensures !(s'.log[i].Rotated? && s'.log[j].Rotated? && s'.log[i].parent == s'.log[j].parent)
      ensures !(s'.log[i].PasswordReset? && s'.log[j].PasswordReset? && s'.log[i].id == s'.log[j].id)
    {
      if s'.log[i].Rotated? { assert RotationOk(s, i); }
      if s'.log[i].PasswordReset? { assert ResetOk(s, i); }
    }
  }

  /** Steps that add no entry and issue nothing. */
  lemma QuietStays(s: State, s': State)
    requires Valid(s) && Ages(s, s') && s'.log == s.log && s'.drawn == s.drawn
    requires s'.tokens.Keys <= s.tokens.Keys && s'.codes == s.codes
    ensures Valid(s')
  {
    forall t | t in s'.tokens ensures TokenOk(s', t) { assert TokenOk(s, t); TokenStays(s, s', t); }
    forall c | c in s'.codes ensures CodeOk(s', c) { assert CodeOk(s, c); CodeStays(s, s', c); }
    EntriesStay(s, s');
  }

  lemma SignInStays(s: State, user: Phone)
    requires Valid(s) && user in s.users
    ensures Valid(SignIn(s, user).state) && Ages(s, SignIn(s, user).state)
  {
    var s' := SignIn(s, user).state;
    assert forall t :: t in s.tokens ==> TokenOk(s, t);
    forall t | t in s'.tokens ensures TokenOk(s', t) {
      if t in s.tokens {
        TokenStays(s, s', t);
      } else {
        assert Issues(s'.log[|s.log|], user, t);
      }
    }
    forall c | c in s'.codes ensures CodeOk(s', c) { assert CodeOk(s, c); CodeStays(s, s', c); }
    EntriesStay(s, s');
  }

  lemma RegisterStays(s: State, phone: Phone, password: Password)
    requires Valid(s)
    ensures Valid(Register(s, phone, password).state)
  {
    if phone !in s.users {
      var s1 := s.(users := s.users[phone := password]);
      QuietStays(s, s1);
      SignInStays(s1, phone);
    }
  }

  lemma {:induction false} RefreshAges(s: State, token: Token)
    requires Valid(s) && Accepts(s, token)
    ensures var user := s.tokens[token].user; var s' := Refresh(s, token).state;
      && user in s.users && Ages(s, s') && s'.log == s.log + [Rotated(user, token, s.drawn)]
      && s'.tokens == Revoke(s.tokens, {token})[s.drawn := TokenRow(user, s.now + s.refreshTtl, false)]
      && s.drawn !in s.tokens && s'.codes == s.codes && token < s.drawn < s'.drawn
      && Descends(s.log, |s.log|, token, user)
  {
    assert TokenOk(s, token);
    assert forall t :: t in s.tokens ==> TokenOk(s, t);
  }

  lemma RefreshStays(s: State, token: Token)
    requires Valid(s)
    ensures Valid(Refresh(s, token).state)
  {
    if Accepts(s, token) {
      RefreshAges(s, token);
      var user := s.tokens[token].user;
      var s' := Refresh(s, token).state;
      DescendsAppended(s.log, Rotated(user, token, s.drawn), |s.log|, token, user);
      forall t | t in s'.tokens ensures TokenOk(s', t) {
        if t in s.tokens {
          assert TokenOk(s, t);
          TokenStays(s, s', t);
        } else {
          assert Issues(s'.log[|s.log|], user, t);
        }
      }
      forall c | c in s'.codes ensures CodeOk(s', c) { assert CodeOk(s, c); CodeStays(s, s', c); }
      assert RotationOk(s', |s.log|);
      EntriesStay(s, s');
    }
  }

  lemma ForgotAges(s: State, phone: Phone, code: string)
    requires Valid(s) && phone in s.users
    ensures var s' := Forgot(s, phone, code).state;
      && Ages(s, s') && s'.log == s.log + [CodeIssued(phone, s.drawn)]
      && s'.tokens == s.tokens && s.drawn !in s.codes && s.drawn < s'.drawn
      && s'.codes.Keys == s.codes.Keys + {s.drawn}
      && forall c :: c in s.codes && s.codes[c].user == phone ==> s'.codes[c].used
  {
    assert forall c :: c in s.codes ==> CodeOk(s, c);
  }

  lemma ForgotStays(s: State, phone: Phone, code: string)
    requires Valid(s)
    ensures Valid(Forgot(s, phone, code).state)
  {
    if phone in s.users {
      ForgotAges(s, phone, code);
      var s' := Forgot(s, phone, code).state;
      forall t | t in s'.tokens ensures TokenOk(s', t) { assert TokenOk(s, t); TokenStays(s, s', t); }
      forall c | c in s'.codes ensures CodeOk(s', c) {
        if c in s.codes {
          assert CodeOk(s, c);
          CodeStays(s, s', c);
        } else {
          assert s'.log[|s.log|] == CodeIssued(phone, c);
        }
      }
      EntriesStay(s, s');
    }
  }

  lemma ResetCommitStays(s: State, phone: Phone, id: CodeId, newPassword: Password)
    requires Valid(s) && id in s.codes && s.codes[id].user == phone && !s.codes[id].used
    ensures Valid(CommitReset(s, phone, id, newPassword))
  {
    var s' := CommitReset(s, phone, id, newPassword);
    assert CodeOk(s, id);
    NewestAppended(s.log, s'.log, |s.log|, phone, id);
    forall t | t in s'.tokens ensures TokenOk(s', t) { assert TokenOk(s, t); TokenStays(s, s', t); }
    forall c | c in s'.codes ensures CodeOk(s', c) { assert CodeOk(s, c); CodeStays(s, s', c); }
    EntriesStay(s, s');
  }

  lemma ApplyStays(s: State, step: Step)
    requires Valid(s)
    ensures Valid(Apply(s, step).state)
  {
    match step
    case DoRegister(phone, password) => RegisterStays(s, phone, password);
    case DoLogin(phone, password) => if phone in s.users { SignInStays(s, phone); }
    case DoRefresh(token) => RefreshStays(s, token);
    case DoLogout(token) => QuietStays(s, Logout(s, token).state);
    case DoForgot(phone, code) => ForgotStays(s, phone, code);
    case DoReset(phone, code, newPassword) =>
      if FindCode(s, phone, code).Pass? { ResetCommitStays(s, phone, FindCode(s, phone, code).value, newPassword); }
    case DoCleanup => QuietStays(s, Cleanup(s));
    case Tick(_) => QuietStays(s, Apply(s, step).state);
  }

  // ------------------------------------------------------------------ Runs

  ghost function Run(s: State, steps: seq<Step>): (r: State)
    requires Valid(s)
    ensures Valid(r)
    decreases |steps|
  {
    if steps == [] then s else
    ApplyStays(s, steps[0]);
    Run(Apply(s, steps[0]).state, steps[1..])
  }

  /**
   * Level A, every run: a refresh token is accepted at most once, and every
   * accepted one traces back through rotations to a sign-in of the same user
   * after that user's latest password reset.
   */
  lemma {:induction false} AcceptedTokensDescend(start: Millis, refreshTtl: nat, codeTtl: nat, steps: seq<Step>, i: nat)
    requires i < |Run(Initial(start, refreshTtl, codeTtl), steps).log|
    requires Run(Initial(start, refreshTtl, codeTtl), steps).log[i].Rotated?
    ensures var log := Run(Initial(start, refreshTtl, codeTtl), steps).log;
      && Descends(log, i, log[i].parent, log[i].user)
      && forall j :: 0 <= j < |log| && log[j].Rotated? && log[j].parent == log[i].parent ==> j == i
  {
    assert RotationOk(Run(Initial(start, refreshTtl, codeTtl), steps), i);
  }

  /** What Descends comes to: the sign-in itself, with no reset of the user's password from it to entry n. */
  lemma {:induction false} DescendsFromSignIn(log: seq<Entry>, n: nat, t: Token, user: Phone)
    requires n <= |log| && Descends(log, n, t, user)
    ensures exists j: nat :: j < n && log[j].SignedIn? && log[j].user == user && NoReset(log, j, n, user)
    decreases n
  {
    var j: nat :| j < n && Issues(log[j], user, t) && NoReset(log, j, n, user)
      && (log[j].Rotated? ==> Descends(log, j, log[j].parent, user));
    if log[j].Rotated? {
      DescendsFromSignIn(log, j, log[j].parent, user);
      var k: nat :| k < j && log[k].SignedIn? && log[k].user == user && NoReset(log, k, j, user);
      assert log[k].SignedIn? && NoReset(log, k, n, user);
    }
  }

  /** Level A, every run: a code changes a password at most once, and only the latest one issued to its user does. */
  lemma {:induction false} OnlyNewestCodesReset(start: Millis, refreshTtl: nat, codeTtl: nat, steps: seq<Step>, i: nat)
    requires i < |Run(Initial(start, refreshTtl, codeTtl), steps).log|
    requires Run(Initial(start, refreshTtl, codeTtl), steps).log[i].PasswordReset?
    ensures var log := Run(Initial(start, refreshTtl, codeTtl), steps).log;
      && Newest(log, i, log[i].user, log[i].id)
      && forall j :: 0 <= j < |log| && log[j].PasswordReset? && log[j].id == log[i].id ==> j == i
  {
    assert ResetOk(Run(Initial(start, refreshTtl, codeTtl), steps), i);
  }
}
