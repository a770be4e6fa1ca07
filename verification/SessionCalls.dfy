/**
 * Level A. What each authentication call answers and leaves behind, read off
 * the rows.
 */
module SessionCalls {
  import opened Common
  import opened Sessions
  import opened SessionInvariant
  import E = SessionEffects

  /** No row has the next number to be drawn. */
  lemma RowsAreOld(s: State)
    requires Valid(s)
    ensures forall t :: t in s.tokens ==> t < s.drawn
    ensures forall c :: c in s.codes ==> c < s.drawn
  {
    forall t | t in s.tokens ensures t < s.drawn { assert TokenOk(s, t); }
    forall c | c in s.codes ensures c < s.drawn { assert CodeOk(s, c); }
  }

  /** A number registers once, and is then signed in with the password given. */
  lemma RegisterSucceedsIff(s: State, phone: Phone, password: Password)
    ensures var r := Register(s, phone, password);
      if phone in s.users then r == Outcome(s, Failed(Conflict))
      else
        && r.answer == Pair(phone, s.drawn)
        && r.state == s.(users := s.users[phone := password],
                         tokens := s.tokens[s.drawn := TokenRow(phone, s.now + s.refreshTtl, false)],
                         drawn := s.drawn + 1, log := s.log + [SignedIn(phone, s.drawn)])
  {
  }

  /** A login takes the number and its password, adds one token and changes nothing else. */
  lemma LoginSucceedsIff(s: State, phone: Phone, password: Password)
    ensures var r := Login(s, phone, password);
      if phone in s.users && s.users[phone] == password
      then
        && r.answer == Pair(phone, s.drawn)
        && r.state == s.(tokens := s.tokens[s.drawn := TokenRow(phone, s.now + s.refreshTtl, false)],
                         drawn := s.drawn + 1, log := s.log + [SignedIn(phone, s.drawn)])
      else r == Outcome(s, Failed(Unauthorized))
  {
  }

  /**
   * The token that a registration or a login answers with is new, and refreshes
   * until its lifetime is over and not after, for its own user; tokens there
   * were are as good as before.
   */
  lemma SignInTokenWorks(s: State, call: Step, later: Millis, other: Token)
    requires Valid(s) && (call.DoRegister? || call.DoLogin?) && Apply(s, call).answer.Pair?
    ensures var pair := Apply(s, call).answer; var s' := Apply(s, call).state.(now := later);
      && pair.user == call.phone && pair.refreshToken !in s.tokens
      && (Refresh(s', pair.refreshToken).answer == Pair(call.phone, s'.drawn) <==> later <= s.now + s.refreshTtl)
      && (later > s.now + s.refreshTtl ==> Refresh(s', pair.refreshToken).answer == Failed(Unauthorized))
      && (other in s.tokens ==> other in s'.tokens && s'.tokens[other] == s.tokens[other])
  {
    RowsAreOld(s);
  }

  /** A refresh takes an unrevoked token of the table up to and at its expiry. */
  lemma RefreshSucceedsIff(s: State, token: Token)
    requires Valid(s)
    ensures var r := Refresh(s, token);
      if token in s.tokens && !s.tokens[token].revoked && s.now <= s.tokens[token].expiresAt
      then r.answer == Pair(s.tokens[token].user, s.drawn)
      else r == Outcome(s, Failed(Unauthorized))
  {
    if token in s.tokens { assert TokenOk(s, token); }
  }

  /** It revokes that row and adds the next, with a lifetime of its own; every other row stays. */
  lemma RefreshEffect(s: State, token: Token, other: Token)
    requires Valid(s) && Refresh(s, token).answer.Pair?
    ensures token in s.tokens
    ensures var s' := Refresh(s, token).state; var row := s.tokens[token];
      && s' == s.(tokens := s'.tokens, drawn := s.drawn + 1, log := s.log + [Rotated(row.user, token, s.drawn)])
      && s'.tokens.Keys == s.tokens.Keys + {s.drawn}
      && token != s.drawn && s'.tokens[token] == TokenRow(row.user, row.expiresAt, true)
      && s'.tokens[s.drawn] == TokenRow(row.user, s.now + s.refreshTtl, false)
      && (other in s.tokens && other != token ==> s'.tokens[other] == s.tokens[other])
  {
    RowsAreOld(s);
    RefreshSucceedsIff(s, token);
  }

  /** A logout revokes the row of the token, if there is one, and is never refused. */
  lemma LogoutEffect(s: State, token: Token, other: Token)
    ensures var r := Logout(s, token);
      && r.answer == Done && r.state == s.(tokens := r.state.tokens)
      && (other in r.state.tokens <==> other in s.tokens)
      && (other in s.tokens ==>
            r.state.tokens[other] == if other == token then s.tokens[other].(revoked := true) else s.tokens[other])
  {
  }

  /** A request for a code is always answered alike; for a known number it uses up the user's codes and adds one. */
  lemma ForgotEffect(s: State, phone: Phone, code: string, other: CodeId)
    requires Valid(s)
    ensures var r := Forgot(s, phone, code);
      && r.answer == Done && (phone !in s.users ==> r.state == s)
      && (phone in s.users ==>
            && r.state == s.(codes := r.state.codes, drawn := s.drawn + 1, log := s.log + [CodeIssued(phone, s.drawn)])
            && r.state.codes.Keys == s.codes.Keys + {s.drawn} && s.drawn !in s.codes
            && r.state.codes[s.drawn] == CodeRow(phone, code, s.now + s.codeTtl, false)
            && (other in s.codes ==>
                  var row := s.codes[other];
                  r.state.codes[other] == CodeRow(row.user, row.code, row.expiresAt, row.used || row.user == phone)))
  {
    RowsAreOld(s);
  }

  /** A code resets while it is the user's, unused and short of its expiry. */
  ghost predicate IsValidCode(s: State, c: CodeId, phone: Phone, code: string) {
    c in s.codes && s.codes[c].user == phone && s.codes[c].code == code && !s.codes[c].used
    && s.now < s.codes[c].expiresAt
  }

  lemma ResetSucceedsIff(s: State, phone: Phone, code: string, newPassword: Password)
    ensures var r := Reset(s, phone, code, newPassword);
      && (r.answer == Done <==> phone in s.users && exists c :: IsValidCode(s, c, phone, code))
      && (r.answer != Done ==> r == Outcome(s, Failed(Unauthorized)))
  {
    forall c: CodeId ensures IsValidCode(s, c, phone, code) <==> c in Matching(s, phone, code) {}
    if phone in s.users && exists c :: IsValidCode(s, c, phone, code) {
      var c :| IsValidCode(s, c, phone, code);
      assert c in Matching(s, phone, code);
    } else if Reset(s, phone, code, newPassword).answer == Done {
      var c := FindCode(s, phone, code).value;
      assert c in Matching(s, phone, code);
    }
  }

  /** It sets the password, uses up the code and revokes every token of the user; all other rows stay. */
  lemma ResetEffect(s: State, phone: Phone, code: string, newPassword: Password, c: CodeId, t: Token)
    requires Valid(s) && Reset(s, phone, code, newPassword).answer == Done
    ensures var s' := Reset(s, phone, code, newPassword).state;
      && s'.users == s.users[phone := newPassword]
      && s'.now == s.now && s'.drawn == s.drawn && s'.refreshTtl == s.refreshTtl && s'.codeTtl == s.codeTtl
      && s'.codes.Keys == s.codes.Keys && s'.tokens.Keys == s.tokens.Keys
      && (c in s.codes ==> s'.codes[c] == s.codes[c].(used := s.codes[c].used || IsValidCode(s, c, phone, code)))
      && (t in s.tokens ==>
            s'.tokens[t] == s.tokens[t].(revoked := s.tokens[t].revoked || s.tokens[t].user == phone))
  {
    var id := FindCode(s, phone, code).value;
    assert id in Matching(s, phone, code);
    if IsValidCode(s, c, phone, code) { E.OneUnused(s, c, id); }
  }

  /** A cleanup deletes the rows past their expiry and no others. */
  lemma CleanupEffect(s: State, t: Token)
    ensures var s' := Cleanup(s);
      && s' == s.(tokens := s'.tokens)
      && (t in s'.tokens <==> t in s.tokens && s.now <= s.tokens[t].expiresAt)
      && (t in s'.tokens ==> s'.tokens[t] == s.tokens[t])
  {
  }
}
