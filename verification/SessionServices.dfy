/**
 * The authentication services as they run: objects that share the user and
 * token tables and write them statement by statement. Every method is proved
 * to be the step of the same name in Sessions, answer and whole state.
 */
module SessionServices {
  import opened Common
  import opened Sessions
  import V = SessionInvariant
  import X = SessionEffects

  class Tables {
    var users: map<Phone, Password>
    var tokens: map<Token, TokenRow>
    var codes: map<CodeId, CodeRow>
    var now: Millis
    var drawn: nat
    ghost var log: seq<Entry>
    const refreshTtl: nat
    const codeTtl: nat

    ghost function View(): State
      reads this
    {
      State(users, tokens, codes, now, drawn, refreshTtl, codeTtl, log)
    }

    constructor (now: Millis, refreshTtl: nat, codeTtl: nat)
      ensures View() == Initial(now, refreshTtl, codeTtl)
    {
      users, tokens, codes := map[], map[], map[];
      this.now, drawn, log := now, 0, [];
      this.refreshTtl, this.codeTtl := refreshTtl, codeTtl;
    }
  }

  class AuthService {
    const shared: Tables

    constructor (shared: Tables)
      ensures this.shared == shared
    {
      this.shared := shared;
    }

    method IssueTokenPair(user: Phone) returns (pair: Answer)
      modifies shared`tokens, shared`drawn
      ensures shared.View() == IssuePair(old(shared.View()), user) && pair == Pair(user, old(shared.drawn))
    {
      var refreshToken := shared.drawn;
      shared.drawn := shared.drawn + 1;
      shared.tokens := shared.tokens[refreshToken := TokenRow(user, shared.now + shared.refreshTtl, false)];
      return Pair(user, refreshToken);
    }

    method Register(phone: Phone, password: Password) returns (answer: Answer)
      modifies shared
      ensures Outcome(shared.View(), answer) == Sessions.Register(old(shared.View()), phone, password)
    {
      if phone in shared.users {
        return Failed(Conflict);
      }
      shared.users := shared.users[phone := password];
      answer := IssueTokenPair(phone);
      shared.log := shared.log + [SignedIn(phone, answer.refreshToken)];
    }

    method Login(phone: Phone, password: Password) returns (answer: Answer)
      modifies shared
      ensures Outcome(shared.View(), answer) == Sessions.Login(old(shared.View()), phone, password)
    {
      if phone !in shared.users {
        return Failed(Unauthorized);
      }
      if shared.users[phone] != password {
        return Failed(Unauthorized);
      }
      answer := IssueTokenPair(phone);
      shared.log := shared.log + [SignedIn(phone, answer.refreshToken)];
    }

    method Refresh(token: Token) returns (answer: Answer)
      modifies shared
      ensures Outcome(shared.View(), answer) == Sessions.Refresh(old(shared.View()), token)
    {
      if token !in shared.tokens || shared.tokens[token].revoked || shared.tokens[token].expiresAt < shared.now {
        return Failed(Unauthorized);
      }
      var stored := shared.tokens[token];
      shared.tokens := shared.tokens[token := stored.(revoked := true)];
      assert shared.tokens == Revoke(old(shared.tokens), {token});
      if stored.user !in shared.users {
        return Failed(Unauthorized);
      }
      answer := IssueTokenPair(stored.user);
      shared.log := shared.log + [Rotated(stored.user, token, answer.refreshToken)];
    }

    method Logout(token: Token) returns (answer: Answer)
      modifies shared
      ensures Outcome(shared.View(), answer) == Sessions.Logout(old(shared.View()), token)
    {
      if token in shared.tokens && !shared.tokens[token].revoked {
        shared.tokens := shared.tokens[token := shared.tokens[token].(revoked := true)];
      }
      assert shared.tokens == Revoke(old(shared.tokens), {token});
      return Done;
    }

    method ForgotPassword(phone: Phone, code: string) returns (answer: Answer)
      modifies shared
      ensures Outcome(shared.View(), answer) == Forgot(old(shared.View()), phone, code)
    {
      if phone !in shared.users {
        return Done;
      }
      var id := shared.drawn;
      shared.drawn := shared.drawn + 1;
      shared.codes := UseUp(shared.codes, Unused(shared.codes, phone));
      shared.codes := shared.codes[id := CodeRow(phone, code, shared.now + shared.codeTtl, false)];
      shared.log := shared.log + [CodeIssued(phone, id)];
      return Done;
    }

    /** The database's choice among the matches does not matter: there is at most one. */
    method ResetPassword(phone: Phone, code: string, newPassword: Password) returns (answer: Answer)
      requires V.Valid(shared.View())
      modifies shared
      ensures Outcome(shared.View(), answer) == Reset(old(shared.View()), phone, code, newPassword)
    {
      if phone !in shared.users {
        return Failed(Unauthorized);
      }
      var matches := set c | c in shared.codes && shared.codes[c].user == phone && shared.codes[c].code == code
                             && !shared.codes[c].used && shared.codes[c].expiresAt > shared.now;
      assert matches == Matching(shared.View(), phone, code);
      if matches == {} {
        return Failed(Unauthorized);
      }
      var stored :| stored in matches;
      X.OneUnused(shared.View(), stored, FindCode(shared.View(), phone, code).value);

      // The transaction.
      shared.codes := shared.codes[stored := shared.codes[stored].(used := true)];
      assert shared.codes == UseUp(old(shared.codes), {stored});
      shared.users := shared.users[phone := newPassword];
      shared.tokens := Revoke(shared.tokens, Live(shared.tokens, phone));
      shared.log := shared.log + [PasswordReset(phone, stored)];
      return Done;
    }
  }

  class TokenCleanupService {
    const shared: Tables

    constructor (shared: Tables)
      ensures this.shared == shared
    {
      this.shared := shared;
    }

    /** The deleted rows' number is logged. */
    method RemoveExpiredRefreshTokens() returns (count: nat)
      modifies shared`tokens
      ensures shared.View() == Cleanup(old(shared.View()))
      ensures count == |old(shared.tokens)| - |shared.tokens|
    {
      var expired := set t | t in shared.tokens && shared.tokens[t].expiresAt < shared.now;
      shared.tokens := shared.tokens - expired;
      count := |expired|;
      assert old(shared.tokens).Keys == shared.tokens.Keys + expired;
      assert |old(shared.tokens).Keys| == |shared.tokens.Keys| + |expired|;
    }
  }
}
