/**
 * Level B of sessions: a refresh reads its row, revokes it, finds the user and
 * inserts the next token; a login compares the password and inserts a token; a
 * registration finds the number free, creates the user and inserts a token; a
 * reset reads its code and commits. Each of these is a step, between any two of
 * which other calls may run or the call may die.
 */
module SessionInterleaving {
  import opened Common
  import opened Sessions
  import opened SessionInvariant

  /** What a call in flight will do next; `at` is history, the length of the log at its revocation. */
  datatype Cont =
    | Revoking(token: Token, user: Phone)
    | Finding(token: Token, user: Phone, at: nat)
    | Inserting(token: Token, user: Phone, at: nat)
    | Committing(phone: Phone, code: CodeId, newPassword: Password)
    | Creating(phone: Phone, password: Password)
    | SigningIn(user: Phone, password: Password)

  /** History: a refresh took a token by revoking its row, or a logout named it. */
  datatype Act = Took(token: Token, user: Phone, at: nat) | LoggedOut(token: Token)

  /** History: passwords as they are set, and the password each session was opened with. */
  datatype Key = PasswordSet(user: Phone, password: Password) | Opened(user: Phone, password: Password)

  datatype Sys = Sys(s: State, calls: map<nat, Cont>, trace: seq<Act>, keys: seq<Key>)

  datatype Event =
    | Begin(id: nat, call: Step)  // a call arrives and makes its first read
    | Resume(id: nat)
    | Crash(id: nat)

  datatype Progress = Progress(s: State, next: Option<Cont>, trace: seq<Act>)

  /** The calls that take several steps here. */
  predicate IsCall(step: Step) {
    step.DoRefresh? || step.DoReset? || step.DoLogin? || step.DoRegister?
  }

  ghost function First(s: State, call: Step): Option<Cont>
    requires IsCall(call)
  {
    match call
    case DoRefresh(token) => if Accepts(s, token) then Some(Revoking(token, s.tokens[token].user)) else None
    case DoReset(phone, code, newPassword) =>
      (match FindCode(s, phone, code)
       case Fail(_) => None
       case Pass(c) => Some(Committing(phone, c, newPassword)))
    case DoLogin(phone, password) =>
      if phone in s.users && s.users[phone] == password then Some(SigningIn(phone, password)) else None
    case DoRegister(phone, password) => if phone in s.users then None else Some(Creating(phone, password))
  }

  /** The update by id throws when a cleanup has deleted the row, the creation when the number is taken by now. */
  function Next(s: State, k: Cont, trace: seq<Act>): Progress {
    match k
    case Revoking(token, user) =>
      if token !in s.tokens then Progress(s, None, trace)
      else
        var s1 := s.(tokens := Revoke(s.tokens, {token}));
        Progress(s1, Some(Finding(token, user, |s.log|)), trace + [Took(token, user, |s.log|)])
    case Finding(token, user, at) =>
      Progress(s, if user in s.users then Some(Inserting(token, user, at)) else None, trace)
    case Inserting(token, user, _) =>
      Progress(IssuePair(s, user).(log := s.log + [Rotated(user, token, s.drawn)]), None, trace)
    case Committing(phone, code, newPassword) => Progress(CommitReset(s, phone, code, newPassword), None, trace)
    case Creating(phone, password) =>
      if phone in s.users then Progress(s, None, trace)
      else Progress(s.(users := s.users[phone := password]), Some(SigningIn(phone, password)), trace)
    case SigningIn(user, _) => Progress(SignIn(s, user).state, None, trace)
  }

  /** What a step does to passwords and sessions. */
  function KeyOf(s: State, k: Cont): seq<Key> {
    match k
    case Committing(phone, _, newPassword) => [PasswordSet(phone, newPassword)]
    case Creating(phone, password) => if phone in s.users then [] else [PasswordSet(phone, password)]
    case SigningIn(user, password) => [Opened(user, password)]
    case _ => []
  }

  ghost function Happen(y: Sys, e: Event): Sys {
    match e
    case Begin(id, call) =>
      if !IsCall(call) then
        Sys(Apply(y.s, call).state, y.calls,
            if call.DoLogout? && call.token in y.s.tokens then y.trace + [LoggedOut(call.token)] else y.trace, y.keys)
      else if id in y.calls || First(y.s, call).None? then y
      else y.(calls := y.calls[id := First(y.s, call).value])
    case Resume(id) =>
      if id !in y.calls then y else
      var p := Next(y.s, y.calls[id], y.trace);
      var calls := if p.next.Some? then y.calls[id := p.next.value] else y.calls - {id};
      Sys(p.s, calls, p.trace, y.keys + KeyOf(y.s, y.calls[id]))
    case Crash(id) => y.(calls := y.calls - {id})
  }

  // ------------------------------------------------------------- Invariant

  ghost predicate IsIssued(log: seq<Entry>, t: Token, user: Phone) {
    exists j: nat :: j < |log| && Issues(log[j], user, t)
  }

  /** The user's password was reset after the token was issued. */
  ghost predicate ResetSince(log: seq<Entry>, t: Token, user: Phone) {
    exists j: nat :: j < |log| && Issues(log[j], user, t) && !NoReset(log, j, |log|, user)
  }

  predicate Named(trace: seq<Act>, t: Token) {
    exists i :: 0 <= i < |trace| && trace[i].token == t
  }

  /** A row is revoked exactly by a refresh, a logout or a reset since its issue. */
  ghost predicate TokenStory(s: State, trace: seq<Act>, t: Token)
    requires t in s.tokens
  {
    var row := s.tokens[t];
    && t < s.drawn && row.user in s.users && IsIssued(s.log, t, row.user)
    && (row.revoked <==> Named(trace, t) || ResetSince(s.log, t, row.user))
  }

  ghost predicate WasUsed(log: seq<Entry>, c: CodeId) {
    exists i :: 0 <= i < |log| && log[i].PasswordReset? && log[i].id == c
  }

  /** An unused code is its user's newest; a used one is superseded or changed the password. */
  ghost predicate CodeStory(s: State, c: CodeId)
    requires c in s.codes
  {
    var row := s.codes[c];
    && c < s.drawn
    && (row.used <==> !Newest(s.log, |s.log|, row.user, c) || WasUsed(s.log, c))
  }

  predicate IsIssue(e: Entry) {
    e.SignedIn? || e.Rotated?
  }

  /** Tokens are issued once, under numbers already drawn. */
  ghost predicate IssuesOnce(s: State) {
    && (forall i :: 0 <= i < |s.log| && IsIssue(s.log[i]) ==> s.log[i].token < s.drawn)
    && (forall i, j :: 0 <= i < j < |s.log| && IsIssue(s.log[i]) && IsIssue(s.log[j]) ==>
          s.log[i].token != s.log[j].token)
  }

  predicate ResetEntryOk(s: State, e: Entry) {
    e.PasswordReset? ==> e.id in s.codes && s.codes[e.id].user == e.user
  }

  ghost predicate StateOk(s: State, trace: seq<Act>) {
    && (forall t {:trigger TokenStory(s, trace, t)} :: t in s.tokens ==> TokenStory(s, trace, t))
    && (forall c {:trigger CodeStory(s, c)} :: c in s.codes ==> CodeStory(s, c))
    && IssuesOnce(s)
    && (forall i :: 0 <= i < |s.log| ==> ResetEntryOk(s, s.log[i]))
    && (forall i :: 0 <= i < |trace| ==> trace[i].token < s.drawn && (trace[i].Took? ==> trace[i].at <= |s.log|))
  }

  ghost predicate Remembers(s: State, trace: seq<Act>, k: Cont) {
    match k
    case Revoking(token, user) =>
      IsIssued(s.log, token, user) && user in s.users && (token in s.tokens ==> s.tokens[token].user == user)
    case Finding(token, user, at) =>
      at <= |s.log| && IsIssued(s.log[..at], token, user) && user in s.users && Took(token, user, at) in trace
    case Inserting(token, user, at) =>
      at <= |s.log| && IsIssued(s.log[..at], token, user) && user in s.users && Took(token, user, at) in trace
    case Committing(phone, code, _) => phone in s.users && code in s.codes && s.codes[code].user == phone
    case Creating(_, _) => true
    case SigningIn(user, _) => user in s.users
  }

  ghost predicate SystemOk(y: Sys) {
    StateOk(y.s, y.trace) && forall id :: id in y.calls ==> Remembers(y.s, y.trace, y.calls[id])
  }

  // ---------------------------------------------------- One entry more

  lemma IssuedAppended(log: seq<Entry>, e: Entry, t: Token, user: Phone)
    ensures IsIssued(log, t, user) ==> IsIssued(log + [e], t, user)
    ensures Issues(e, user, t) ==> IsIssued(log + [e], t, user)
  {
    if IsIssued(log, t, user) {
      var j: nat :| j < |log| && Issues(log[j], user, t);
      assert Issues((log + [e])[j], user, t);
    }
    assert (log + [e])[|log|] == e;
  }

  lemma ResetSinceAppended(log: seq<Entry>, e: Entry, t: Token, user: Phone)
    requires IsIssued(log, t, user) && !Issues(e, user, t)
    ensures ResetSince(log + [e], t, user) <==> ResetSince(log, t, user) || (e.PasswordReset? && e.user == user)
  {
    var log' := log + [e];
    assert log'[|log|] == e && forall i :: 0 <= i < |log| ==> log'[i] == log[i];
    if ResetSince(log', t, user) {
      var j: nat :| j < |log'| && Issues(log'[j], user, t) && !NoReset(log', j, |log'|, user);
      assert Issues(log[j], user, t);
      var i :| j <= i < |log'| && log'[i].PasswordReset? && log'[i].user == user;
      assert i < |log| ==> !NoReset(log, j, |log|, user);
    }
    if ResetSince(log, t, user) {
      var j: nat :| j < |log| && Issues(log[j], user, t) && !NoReset(log, j, |log|, user);
      var i :| j <= i < |log| && log[i].PasswordReset? && log[i].user == user;
      assert Issues(log'[j], user, t) && log'[i].PasswordReset? && log'[i].user == user;
    }
    if e.PasswordReset? && e.user == user {
      var j: nat :| j < |log| && Issues(log[j], user, t);
      assert Issues(log'[j], user, t) && log'[|log|].PasswordReset?;
    }
  }

  /** A token just issued has seen no reset. */
  lemma NoResetSinceIssue(s: State, e: Entry, user: Phone)
    requires IssuesOnce(s) && Issues(e, user, s.drawn)
    ensures !ResetSince(s.log + [e], s.drawn, user)
  {
    var log' := s.log + [e];
    forall j: nat | j < |log'| && Issues(log'[j], user, s.drawn) ensures NoReset(log', j, |log'|, user) {
      assert j < |s.log| ==> IsIssue(s.log[j]);
    }
  }

  lemma NewestAppendedIff(log: seq<Entry>, e: Entry, user: Phone, c: CodeId)
    ensures Newest(log + [e], |log| + 1, user, c)
       <==> if e.CodeIssued? && e.user == user then e.id == c else Newest(log, |log|, user, c)
  {
    var log' := log + [e];
    assert log'[|log|] == e && forall i :: 0 <= i < |log| ==> log'[i] == log[i];
    if Newest(log', |log| + 1, user, c) {
      var j: nat :| j < |log| + 1 && log'[j] == CodeIssued(user, c)
        && forall i :: j < i < |log| + 1 ==> !(log'[i].CodeIssued? && log'[i].user == user);
      assert j < |log| ==> log[j] == CodeIssued(user, c);
    }
    if e == CodeIssued(user, c) {
      assert log'[|log|] == CodeIssued(user, c);
    } else if !(e.CodeIssued? && e.user == user) && Newest(log, |log|, user, c) {
      var j: nat :| j < |log| && log[j] == CodeIssued(user, c)
        && forall i :: j < i < |log| ==> !(log[i].CodeIssued? && log[i].user == user);
      assert log'[j] == CodeIssued(user, c);
    }
  }

  lemma WasUsedAppended(log: seq<Entry>, e: Entry, c: CodeId)
    ensures WasUsed(log + [e], c) <==> WasUsed(log, c) || (e.PasswordReset? && e.id == c)
  {
    var log' := log + [e];
    assert log'[|log|] == e && forall i :: 0 <= i < |log| ==> log'[i] == log[i];
    if WasUsed(log, c) {
      var i :| 0 <= i < |log| && log[i].PasswordReset? && log[i].id == c;
      assert log'[i].PasswordReset? && log'[i].id == c;
    }
  }

  lemma NamedAppended(trace: seq<Act>, a: Act, t: Token)
    ensures Named(trace + [a], t) <==> Named(trace, t) || a.token == t
  {
    var trace' := trace + [a];
    assert trace'[|trace|] == a && forall i :: 0 <= i < |trace| ==> trace'[i] == trace[i];
    if Named(trace, t) {
      var i :| 0 <= i < |trace| && trace[i].token == t;
      assert trace'[i].token == t;
    }
  }

  // ---------------------------------------------------- The stories kept

  lemma QuietKeepsState(s: State, s': State, trace: seq<Act>)
    requires StateOk(s, trace) && s'.log == s.log && s'.drawn == s.drawn && s'.codes == s.codes
    requires s.users.Keys <= s'.users.Keys
    requires forall t :: t in s'.tokens ==> t in s.tokens && s'.tokens[t] == s.tokens[t]
    ensures StateOk(s', trace)
  {
    forall t | t in s'.tokens ensures TokenStory(s', trace, t) { assert TokenStory(s, trace, t); }
    forall c | c in s'.codes ensures CodeStory(s', c) { assert CodeStory(s, c); }
    forall i | 0 <= i < |s'.log| ensures ResetEntryOk(s', s'.log[i]) { assert ResetEntryOk(s, s.log[i]); }
  }

  /** A refresh or a logout revokes a row. */
  lemma NamingKeepsState(s: State, trace: seq<Act>, a: Act)
    requires StateOk(s, trace) && a.token in s.tokens && (a.Took? ==> a.at <= |s.log|)
    ensures StateOk(s.(tokens := Revoke(s.tokens, {a.token})), trace + [a])
  {
    var s' := s.(tokens := Revoke(s.tokens, {a.token}));
    forall t | t in s'.tokens ensures TokenStory(s', trace + [a], t) {
      assert TokenStory(s, trace, t);
      NamedAppended(trace, a, t);
    }
    assert TokenStory(s, trace, a.token);
    forall c | c in s'.codes ensures CodeStory(s', c) { assert CodeStory(s, c); }
    forall i | 0 <= i < |s'.log| ensures ResetEntryOk(s', s'.log[i]) { assert ResetEntryOk(s, s.log[i]); }
  }

  function Issued(s: State, user: Phone, e: Entry): State {
    IssuePair(s, user).(log := s.log + [e])
  }

  lemma IssuingKeepsTokens(s: State, trace: seq<Act>, user: Phone, e: Entry, t: Token)
    requires StateOk(s, trace) && user in s.users && Issues(e, user, s.drawn) && t in Issued(s, user, e).tokens
    ensures TokenStory(Issued(s, user, e), trace, t)
  {
    if t == s.drawn {
      IssuedAppended(s.log, e, t, user);
      NoResetSinceIssue(s, e, user);
      assert !Named(trace, t);
    } else {
      assert TokenStory(s, trace, t);
      IssuedAppended(s.log, e, t, s.tokens[t].user);
      ResetSinceAppended(s.log, e, t, s.tokens[t].user);
    }
  }

  /** A sign-in or a rotation inserts a token. */
  lemma IssuingKeepsState(s: State, trace: seq<Act>, user: Phone, e: Entry)
    requires StateOk(s, trace) && user in s.users && Issues(e, user, s.drawn)
    ensures StateOk(Issued(s, user, e), trace)
  {
    var s' := Issued(s, user, e);
    forall t | t in s'.tokens ensures TokenStory(s', trace, t) { IssuingKeepsTokens(s, trace, user, e, t); }
    forall c | c in s'.codes ensures CodeStory(s', c) {
      assert CodeStory(s, c);
      NewestAppendedIff(s.log, e, s.codes[c].user, c);
      WasUsedAppended(s.log, e, c);
    }
    forall i | 0 <= i < |s'.log| ensures ResetEntryOk(s', s'.log[i]) {
      if i < |s.log| { assert ResetEntryOk(s, s.log[i]); }
    }
  }

  lemma OldTokensKept(s: State, s': State, trace: seq<Act>, e: Entry, t: Token)
    requires StateOk(s, trace) && s'.log == s.log + [e] && !IsIssue(e) && t in s.tokens && t in s'.tokens
    requires s.drawn <= s'.drawn && s.users.Keys <= s'.users.Keys && s'.tokens[t].user == s.tokens[t].user
    requires s'.tokens[t].revoked <==> s.tokens[t].revoked || (e.PasswordReset? && e.user == s.tokens[t].user)
    ensures TokenStory(s', trace, t)
  {
    assert TokenStory(s, trace, t);
    IssuedAppended(s.log, e, t, s.tokens[t].user);
    ResetSinceAppended(s.log, e, t, s.tokens[t].user);
  }

  lemma ForgotKeepsState(s: State, trace: seq<Act>, phone: Phone, code: string)
    requires StateOk(s, trace)
    ensures StateOk(Forgot(s, phone, code).state, trace)
  {
    if phone in s.users {
      var s', e := Forgot(s, phone, code).state, CodeIssued(phone, s.drawn);
      assert s'.log == s.log + [e];
      forall t | t in s'.tokens ensures TokenStory(s', trace, t) { OldTokensKept(s, s', trace, e, t); }
      forall c | c in s'.codes ensures CodeStory(s', c) {
        NewestAppendedIff(s.log, e, s'.codes[c].user, c);
        WasUsedAppended(s.log, e, c);
        if c in s.codes { assert CodeStory(s, c); } else { NotYetUsed(s, trace, c); }
      }
      forall i | 0 <= i < |s'.log| ensures ResetEntryOk(s', s'.log[i]) {
        if i < |s.log| { assert ResetEntryOk(s, s.log[i]); }
      }
    }
  }

  lemma NotYetUsed(s: State, trace: seq<Act>, c: CodeId)
    requires StateOk(s, trace) && c !in s.codes
    ensures !WasUsed(s.log, c)
  {
    forall i | 0 <= i < |s.log| && s.log[i].PasswordReset? ensures s.log[i].id != c {
      assert ResetEntryOk(s, s.log[i]);
    }
  }

  lemma CommitKeepsState(s: State, trace: seq<Act>, phone: Phone, code: CodeId, newPassword: Password)
    requires StateOk(s, trace) && phone in s.users && code in s.codes && s.codes[code].user == phone
    ensures StateOk(CommitReset(s, phone, code, newPassword), trace)
  {
    var s', e := CommitReset(s, phone, code, newPassword), PasswordReset(phone, code);
    forall t | t in s'.tokens ensures TokenStory(s', trace, t) { OldTokensKept(s, s', trace, e, t); }
    forall c | c in s'.codes ensures CodeStory(s', c) {
      assert CodeStory(s, c);
      NewestAppendedIff(s.log, e, s.codes[c].user, c);
      WasUsedAppended(s.log, e, c);
    }
    forall i | 0 <= i < |s'.log| ensures ResetEntryOk(s', s'.log[i]) {
      if i < |s.log| { assert ResetEntryOk(s, s.log[i]); }
    }
  }

  // ------------------------------------------------------------ The system

  /** Nothing a call remembers can be undone. */
  ghost predicate Grows(s: State, trace: seq<Act>, s': State, trace': seq<Act>) {
    && s.users.Keys <= s'.users.Keys && s.drawn <= s'.drawn && s.log <= s'.log && trace <= trace'
    && (forall c :: c in s.codes ==> c in s'.codes && s'.codes[c].user == s.codes[c].user)
    && (forall t :: t in s'.tokens && t < s.drawn ==> t in s.tokens && s'.tokens[t].user == s.tokens[t].user)
  }

  lemma GrowthKeepsMemory(s: State, trace: seq<Act>, s': State, trace': seq<Act>, k: Cont)
    requires StateOk(s, trace) && Grows(s, trace, s', trace') && Remembers(s, trace, k)
    ensures Remembers(s', trace', k)
  {
    match k
    case Revoking(token, user) =>
      var j: nat :| j < |s.log| && Issues(s.log[j], user, token);
      assert Issues(s'.log[j], user, token) && IsIssue(s.log[j]);
    case Finding(token, user, at) => assert s'.log[..at] == s.log[..at];
    case Inserting(token, user, at) => assert s'.log[..at] == s.log[..at];
    case Committing(_, _, _) =>
    case Creating(_, _) =>
    case SigningIn(_, _) =>
  }

  lemma NextKeepsState(s: State, trace: seq<Act>, k: Cont)
    requires StateOk(s, trace) && Remembers(s, trace, k)
    ensures var p := Next(s, k, trace);
      && StateOk(p.s, p.trace) && Grows(s, trace, p.s, p.trace)
      && (p.next.Some? ==> Remembers(p.s, p.trace, p.next.value))
  {
    match k
    case Revoking(token, user) =>
      if token in s.tokens {
        NamingKeepsState(s, trace, Took(token, user, |s.log|));
        assert s.log[..|s.log|] == s.log;
        assert (trace + [Took(token, user, |s.log|)])[|trace|] == Took(token, user, |s.log|);
      }
    case Inserting(token, user, _) =>
      IssuingKeepsState(s, trace, user, Rotated(user, token, s.drawn));
      assert forall t :: t in s.tokens ==> TokenStory(s, trace, t);
    case Committing(phone, code, newPassword) => CommitKeepsState(s, trace, phone, code, newPassword);
    case Finding(_, _, _) =>
    case Creating(phone, password) =>
      if phone !in s.users { QuietKeepsState(s, s.(users := s.users[phone := password]), trace); }
    case SigningIn(user, _) => SignInKeepsState(s, trace, user);
  }

  lemma SignInKeepsState(s: State, trace: seq<Act>, user: Phone)
    requires StateOk(s, trace) && user in s.users
    ensures StateOk(SignIn(s, user).state, trace) && Grows(s, trace, SignIn(s, user).state, trace)
  {
    IssuingKeepsState(s, trace, user, SignedIn(user, s.drawn));
    assert forall t :: t in s.tokens ==> TokenStory(s, trace, t);
  }

  /** The steps that are one write. */
  lemma OutsideKeepsState(y: Sys, id: nat, call: Step)
    requires StateOk(y.s, y.trace) && !IsCall(call)
    ensures var z := Happen(y, Begin(id, call));
      z.calls == y.calls && StateOk(z.s, z.trace) && Grows(y.s, y.trace, z.s, z.trace)
  {
    var s, trace := y.s, y.trace;
    match call
    case DoLogout(token) =>
      if token in s.tokens {
        NamingKeepsState(s, trace, LoggedOut(token));
      } else {
        QuietKeepsState(s, Logout(s, token).state, trace);
      }
    case DoForgot(phone, code) =>
      ForgotKeepsState(s, trace, phone, code);
      assert forall c :: c in s.codes ==> CodeStory(s, c);
    case DoCleanup => QuietKeepsState(s, Cleanup(s), trace);
    case Tick(_) => QuietKeepsState(s, Apply(s, call).state, trace);
  }

  lemma FirstRemembers(s: State, trace: seq<Act>, call: Step)
    requires StateOk(s, trace) && IsCall(call)
    ensures First(s, call).Some? ==> Remembers(s, trace, First(s, call).value)
  {
    if call.DoRefresh? && call.token in s.tokens { assert TokenStory(s, trace, call.token); }
  }

  lemma HappenKeepsValid(y: Sys, e: Event)
    requires SystemOk(y)
    ensures SystemOk(Happen(y, e))
  {
    var z := Happen(y, e);
    match e
    case Begin(id, call) =>
      if IsCall(call) { FirstRemembers(y.s, y.trace, call); } else { OutsideKeepsState(y, id, call); }
      if !IsCall(call) {
        forall i | i in z.calls ensures Remembers(z.s, z.trace, z.calls[i]) {
          GrowthKeepsMemory(y.s, y.trace, z.s, z.trace, y.calls[i]);
        }
      }
    case Resume(id) =>
      if id in y.calls {
        NextKeepsState(y.s, y.trace, y.calls[id]);
        forall i | i in z.calls && i != id ensures Remembers(z.s, z.trace, z.calls[i]) {
          GrowthKeepsMemory(y.s, y.trace, z.s, z.trace, y.calls[i]);
        }
      }
    case Crash(_) =>
  }

  ghost function RunAll(y: Sys, events: seq<Event>): (r: Sys)
    requires SystemOk(y)
    ensures SystemOk(r)
    decreases |events|
  {
    if events == [] then y else
    HappenKeepsValid(y, events[0]);
    RunAll(Happen(y, events[0]), events[1..])
  }

  ghost function FromEmpty(start: Millis, refreshTtl: nat, codeTtl: nat, events: seq<Event>): (r: Sys)
    ensures SystemOk(r)
  {
    RunAll(Sys(Initial(start, refreshTtl, codeTtl), map[], [], []), events)
  }

  /** Level B. However resets and requests interleave, a user never has two unused codes. */
  lemma OneUnusedCode(start: Millis, refreshTtl: nat, codeTtl: nat, events: seq<Event>, user: Phone)
    ensures |Unused(FromEmpty(start, refreshTtl, codeTtl, events).s.codes, user)| <= 1
  {
    var s := FromEmpty(start, refreshTtl, codeTtl, events).s;
    if Unused(s.codes, user) != {} {
      var c :| c in Unused(s.codes, user);
      assert CodeStory(s, c);
      forall d | d in Unused(s.codes, user) ensures d == c {
        assert CodeStory(s, d);
        OneNewest(s.log, user, c, d);
      }
      assert Unused(s.codes, user) == {c};
    }
  }

  lemma OneNewest(log: seq<Entry>, user: Phone, c: CodeId, d: CodeId)
    requires Newest(log, |log|, user, c) && Newest(log, |log|, user, d)
    ensures c == d
  {
    var i: nat :| i < |log| && log[i] == CodeIssued(user, c)
      && forall k :: i < k < |log| ==> !(log[k].CodeIssued? && log[k].user == user);
    var j: nat :| j < |log| && log[j] == CodeIssued(user, d)
      && forall k :: j < k < |log| ==> !(log[k].CodeIssued? && log[k].user == user);
    assert i == j;
  }

  /** Level B. A password is only ever changed by a code issued to its own user, which is used up. */
  lemma ResetsUseOwnCodes(start: Millis, refreshTtl: nat, codeTtl: nat, events: seq<Event>, i: nat)
    requires i < |FromEmpty(start, refreshTtl, codeTtl, events).s.log|
    requires FromEmpty(start, refreshTtl, codeTtl, events).s.log[i].PasswordReset?
    ensures var s := FromEmpty(start, refreshTtl, codeTtl, events).s;
      s.log[i].id in s.codes && s.codes[s.log[i].id].user == s.log[i].user && s.codes[s.log[i].id].used
  {
    var s := FromEmpty(start, refreshTtl, codeTtl, events).s;
    assert ResetEntryOk(s, s.log[i]);
    assert CodeStory(s, s.log[i].id);
  }

  /** Level B refines to Level A: a call nothing interferes with is its single step. */
  lemma AloneIsAtOnce(y: Sys, id: nat, call: Step)
    requires SystemOk(y) && id !in y.calls && IsCall(call)
    ensures var one := Happen(Happen(y, Begin(id, call)), Resume(id)); var two := Happen(one, Resume(id));
      (match call
       case DoRefresh(_) => Happen(two, Resume(id))
       case DoRegister(_, _) => two
       case _ => one).s == Apply(y.s, call).state
  {
    FirstRemembers(y.s, y.trace, call);
    if First(y.s, call).Some? {
      var y1 := Happen(y, Begin(id, call));
      var y2 := Happen(y1, Resume(id));
      if call.DoRefresh? {
        assert y2.calls[id].Finding?;
        var y3 := Happen(y2, Resume(id));
        assert y3.calls[id].Inserting?;
      } else if call.DoRegister? {
        assert y2.calls[id].SigningIn?;
      }
    }
  }
}
