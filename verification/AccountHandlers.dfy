/** The account handlers, step by step, over the mutable tables. */
module AccountHandlers {
  import opened Wrappers
  import opened Clock
  import opened Rows
  import opened Tokens
  import opened Accounts
  import opened AccountProofs

  /** A payload under construction; encoding it records its expiry. */
  class TokenPayload {
    const user: Id
    const session: Option<string>
    const kind: TokenType
    var exp: Option<Moment>

    constructor (user: Id, session: Option<string>, kind: TokenType)
      ensures this.user == user && this.session == session && this.kind == kind && exp.None?
    {
      this.user := user;
      this.session := session;
      this.kind := kind;
      this.exp := None;
    }

    /** `encode_jwt`; without a lifetime of its own, the kind decides. */
    method Encode(cfg: Lifetimes, now: Moment, expiresIn: Option<nat>) returns (token: Token, expiredAt: Moment)
      modifies this`exp
      ensures
        var lifetime := expiresIn.GetOr(if kind.REFRESH? then cfg.refresh else cfg.access);
        (token, expiredAt) == EncodeJwt(user, session, kind, now, lifetime) && exp == Some(expiredAt)
    {
      var lifetime := if expiresIn.Some? then expiresIn.value else if kind.REFRESH? then cfg.refresh else cfg.access;
      expiredAt := now + lifetime * SECOND;
      exp := Some(expiredAt);
      token := Signed(Payload(user, session, kind, WholeSeconds(expiredAt)));
    }
  }

  // -------- what the tables look like after a handler

  /** A sign-up that registers somebody uses an invitation that nobody has used. */
  lemma SignUpSpends(cfg: Lifetimes, s: System, email: string, password: string, invite: string, sid: string, m: Times)
    requires Coherent(cfg, s)
    ensures
      var (r, answer) := StepSignUp(cfg, s, email, password, invite, sid, m);
      && (invite in s.spent ==> answer.Failed? && r.db.users == s.db.users && r.db.sessions == s.db.sessions)
      && (r.db.users == s.db.users
          || (invite in r.spent && invite !in s.spent
              && r.db.users == s.db.users[s.db.nextId := User(email, password, true)]))
  {
    var found := ValidInvite(s.db.invites, invite, email, m.look);
    if found.Some? {
      assert InviteFits(s.db, s.minted, s.spent, found.value);
    }
  }

  lemma InviteWrites(cfg: Lifetimes, s: System, owner: Id, email: string, invite: string, m: Times)
    requires Coherent(cfg, s)
    ensures
      var (r, answer) := StepCreateInvite(cfg, s, owner, email, invite, m);
      answer.Done? ==> exists i ::
        && i in r.db.invites && IsInviteFor(r.db.invites[i], email)
        && r.db.invites[i].token == invite && !r.db.invites[i].applied
        && (forall j :: j in r.db.invites && IsInviteFor(r.db.invites[j], email) ==> j == i)
        && r.db.invites - {i} == s.db.invites - {i}
        && r.db.invites[i].expiredAt == ExpiryOf(m.access, cfg.invite) && r.db.invites[i].user.None?
        && r.db.invites[i].owner == if i in s.db.invites then s.db.invites[i].owner else owner
  {
    var (r, answer) := StepCreateInvite(cfg, s, owner, email, invite, m);
    if answer.Done? {
      var target := InviteFor(s.db.invites, email).GetOr(s.db.nextId);
      assert target in r.db.invites && r.db.invites - {target} == s.db.invites - {target};
      assert forall j :: j in s.db.invites && j != target && target in s.db.invites ==>
               InvitesApart(s.db.invites[j], s.db.invites[target]);
    }
  }

  lemma UpdateMeAnswers(s: System, user: Id, newEmail: Option<string>, newPassword: Option<string>, m: Times)
    requires UsersFit(s.db)
    ensures
      var answer := StepUpdateMe(s, user, newEmail, newPassword, m).1;
      answer == Failed(StateConflict) <==>
        && user in s.db.users && newEmail.GetOr("") != ""
        && exists other :: other != user && HasEmail(s.db.users, other, newEmail.GetOr(""))
  {
    var found := ByEmail(s.db.users, newEmail.GetOr(""));
    if other :| other != user && HasEmail(s.db.users, other, newEmail.GetOr("")) {
      assert found.Some? && HasEmail(s.db.users, found.value, newEmail.GetOr(""));
    }
  }

  class AccountApi {
    const cfg: Lifetimes
    var users: map<Id, User>
    var sessions: map<string, Session>
    var invites: map<Id, Invite>
    var nextId: Id
    ghost var clock: Moment
    ghost var issued: set<Token>
    ghost var minted: set<string>
    ghost var spent: set<string>

    /** What every handler relies on and keeps. */
    ghost predicate Valid()
      reads this
    {
      Coherent(cfg, Snapshot())
    }

    constructor (cfg: Lifetimes)
      ensures this.cfg == cfg && Snapshot() == EMPTY_SYSTEM && Valid()
    {
      this.cfg := cfg;
      users, sessions, invites, nextId := map[], map[], map[], 1;
      clock, issued, minted, spent := 0, {}, {}, {};
    }

    ghost function Snapshot(): System
      reads this
    {
      System(Tables(users, sessions, invites, nextId), clock, issued, minted, spent)
    }

    /** `issue_token_pair`. */
    method IssueTokenPair(user: Id, sid: string, m: Times) returns (access: Token, refresh: Token, expiry: Moment)
      ensures (access, refresh, expiry) == IssuePair(cfg, user, sid, m)
    {
      var accessPayload := new TokenPayload(user, Some(sid), ACCESS);
      var refreshPayload := new TokenPayload(user, Some(sid), REFRESH);
      var token, _ := accessPayload.Encode(cfg, m.access, None);
      access := token;
      refresh, expiry := refreshPayload.Encode(cfg, m.refresh, None);
    }

    /** `create_user_session`: the id must be new, and no other session changes. */
    method CreateUserSession(user: Id, sid: string, m: Times) returns (answer: Answer)
      requires Valid()
      modifies this
      ensures (Snapshot(), answer) == OpenSession(cfg, old(Snapshot()), user, sid, m)
      ensures InOrder(old(clock), m) && user in users && sid != "" ==> Valid() && Ages(old(Snapshot()), Snapshot())
      ensures answer.Pair? <==> sid !in old(sessions)
      ensures answer.Pair? ==>
                && sessions == old(sessions)[sid := sessions[sid]] && sessions[sid].user == user && sessions[sid].active
                && sessions[sid].refresh == Some(answer.refreshed)
                && sessions[sid].createdAt == m.write && sessions[sid].refreshedAt == m.write
      ensures answer.Failed? ==> sessions == old(sessions) && issued == old(issued)
    {
      if InOrder(clock, m) && user in users && sid != "" {
        OpenSessionKeeps(cfg, Snapshot(), user, sid, m);
      }
      clock := m.write;
      var access, refresh, expiry := IssueTokenPair(user, sid, m);
      if sid in sessions {
        return Failed(IntegrityError);
      }
      sessions := sessions[sid := Session(user, Some(refresh), true, expiry, m.write, m.write)];
      issued := issued + {access, refresh};
      return Pair(access, refresh);
    }

    /** `authenticate_refresh_token`: only the token the session's row stores is accepted, while the session is live and
        its user active, and before the token expires. */
    method AuthenticateRefreshToken(token: Token, m: Times) returns (r: Result<string, AuthError>)
      ensures r == AuthenticateRefresh(users, sessions, token, m.decode, m.look)
      ensures r.Ok? ==>
                && IsLive(users, sessions, r.value, m.look) && users[sessions[r.value].user].active
                && sessions[r.value].refresh == Some(token) && token.Signed? && m.decode < token.payload.exp * SECOND
    {
      var payload := DecodeJwt(token, REFRESH, m.decode);
      if payload.Err? {
        return Err(payload.error);
      }
      var user, session := payload.value.user, payload.value.session.GetOr("");
      if user == 0 || session == "" {
        return Err(AuthInvalid);
      }
      if !IsLive(users, sessions, session, m.look) {
        return Err(SessionInactive);
      }
      var row := sessions[session];
      if row.user != user || !users[row.user].active {
        return Err(AuthInvalid);
      }
      if row.refresh != Some(token) {
        return Err(AuthInvalid);
      }
      return Ok(session);
    }

    /** `refresh_user_session`: the stored token is replaced in the session's row alone, and the stored expiry does not
        go back; a refused refresh changes no table. */
    method RefreshUserSession(token: Token, m: Times) returns (answer: Answer)
      requires Valid()
      modifies this
      ensures (Snapshot(), answer) == RefreshSession(cfg, old(Snapshot()), token, m)
      ensures InOrder(old(clock), m) ==> Valid() && Ages(old(Snapshot()), Snapshot())
      ensures answer.Pair? ==> exists sid ::
                && sid in old(sessions) && sid in sessions && sessions == old(sessions)[sid := sessions[sid]]
                && old(sessions)[sid].refresh == Some(token) && sessions[sid].refresh == Some(answer.refreshed)
                && sessions[sid].refreshedAt == m.write && sessions[sid].createdAt == old(sessions)[sid].createdAt
                && answer.access == Signed(Payload(sessions[sid].user, Some(sid), ACCESS,
                                                   WholeSeconds(ExpiryOf(m.access, cfg.access))))
                && (InOrder(old(clock), m) ==> old(sessions)[sid].expiredAt <= sessions[sid].expiredAt)
      ensures !answer.Pair? ==> answer.Failed? && sessions == old(sessions) && issued == old(issued)
    {
      if InOrder(clock, m) {
        RefreshKeeps(cfg, Snapshot(), token, m);
      }
      clock := m.write;
      var auth := AuthenticateRefreshToken(token, m);
      if auth.Err? {
        return Failed(auth.error);
      }
      var row := sessions[auth.value];
      var access, refresh, expiry := IssueTokenPair(row.user, auth.value, m);
      sessions := sessions[auth.value := row.(refresh := Some(refresh), expiredAt := expiry,
                                                 refreshedAt := m.write, active := true)];
      issued := issued + {access, refresh};
      return Pair(access, refresh);
    }

    /** The first transaction of a sign-up. */
    method Register(email: string, password: string, invite: string, row: Id) returns (user: Id)
      requires Valid() && ByEmail(users, email).None?
      requires row in invites && invites[row].token == invite && !invites[row].applied
      modifies this
      ensures Snapshot() == Registered(old(Snapshot()), email, password, invite, row) && user == old(nextId)
      ensures Valid() && Ages(old(Snapshot()), Snapshot()) && user in users
    {
      RegisteredKeeps(cfg, Snapshot(), email, password, invite, row);
      user := nextId;
      users := users[user := User(email, password, true)];
      nextId := user + 1;
      invites := invites[row := invites[row].(applied := true, user := Some(user))];
      spent := spent + {invite};
    }

    /** `sign_up`: the first transaction registers, the second opens a session. A used invitation registers nobody, and
        whoever is registered used one that was not. */
    method SignUp(email: string, password: string, invite: string, sid: string, m: Times) returns (answer: Answer)
      requires Valid()
      modifies this
      ensures (Snapshot(), answer) == StepSignUp(cfg, old(Snapshot()), email, password, invite, sid, m)
      ensures InOrder(old(clock), m) && sid != "" ==> Valid() && Ages(old(Snapshot()), Snapshot())
      ensures invite in old(spent) ==> answer.Failed? && users == old(users) && sessions == old(sessions)
      ensures users == old(users)
              || (invite in spent && invite !in old(spent)
                  && users == old(users)[old(nextId) := User(email, password, true)])
    {
      SignUpSpends(cfg, Snapshot(), email, password, invite, sid, m);
      if InOrder(clock, m) && sid != "" {
        SignUpKeeps(cfg, Snapshot(), email, password, invite, sid, m);
      }
      var taken := ByEmail(users, email);
      if taken.Some? {
        clock := m.write;
        return Failed(StateConflict);
      }
      var valid := ValidInvite(invites, invite, email, m.look);
      if valid.None? {
        clock := m.write;
        return Failed(InvalidParameters);
      }
      var user := Register(email, password, invite, valid.value);
      answer := CreateUserSession(user, sid, m);
    }

    /** `reset_password`: the same answer whether or not a link is sent, which is what `Link` stands for. One is sent
        exactly when an active user has the email, and no table changes. */
    method ResetPassword(email: string, m: Times) returns (answer: Answer)
      requires Valid()
      modifies this
      ensures (Snapshot(), answer) == StepResetPassword(cfg, old(Snapshot()), email, m)
      ensures InOrder(old(clock), m) ==> Valid() && Ages(old(Snapshot()), Snapshot())
      ensures answer.Link? <==> exists id :: HasEmail(users, id, email) && users[id].active
      ensures users == old(users) && sessions == old(sessions) && invites == old(invites)
    {
      if InOrder(clock, m) {
        ResetKeeps(cfg, Snapshot(), email, m);
      }
      clock := m.write;
      var user := ByEmail(users, email);
      if user.Some? && users[user.value].active {
        assert HasEmail(users, user.value, email);
        var payload := new TokenPayload(user.value, None, RESET_PASSWORD);
        var token, _ := payload.Encode(cfg, m.access, Some(cfg.reset));
        issued := issued + {token};
        return Link(token);
      }
      return Done;
    }

    /** `change_password`: exactly the sessions of the token's user become inactive, and only that user's row
        changes. */
    method ChangePassword(token: Token, password: string, m: Times) returns (answer: Answer)
      requires Valid()
      modifies this
      ensures (Snapshot(), answer) == StepChangePassword(old(Snapshot()), token, password, m)
      ensures InOrder(old(clock), m) ==> Valid() && Ages(old(Snapshot()), Snapshot())
      ensures answer.Done? ==>
                && token.Signed? && token.payload.kind == RESET_PASSWORD && token.payload.user in old(users)
                && users.Keys == old(users).Keys && users - {token.payload.user} == old(users) - {token.payload.user}
                && users[token.payload.user].password == password && sessions.Keys == old(sessions).Keys
                && (forall sid :: sid in sessions && old(sessions)[sid].user == token.payload.user ==>
                      sessions[sid] == old(sessions)[sid].(active := false))
                && (forall sid :: sid in sessions && old(sessions)[sid].user != token.payload.user ==>
                      sessions[sid] == old(sessions)[sid])
      ensures !answer.Done? ==> answer.Failed? && users == old(users) && sessions == old(sessions)
    {
      if InOrder(clock, m) {
        ChangePasswordKeeps(cfg, Snapshot(), token, password, m);
      }
      clock := m.write;
      var payload := DecodeJwt(token, RESET_PASSWORD, m.decode);
      if payload.Err? {
        return Failed(payload.error);
      }
      var user := payload.value.user;
      if user == 0 {
        return Failed(AuthInvalid);
      }
      if user !in users || !users[user].active {
        return Failed(AuthInvalid);
      }
      users := users[user := users[user].(password := password)];
      sessions := DeactivateUser(sessions, user);
      return Done;
    }

    /** `sign_out`: exactly the current session, if there is one, becomes inactive. */
    method SignOut(session: Option<string>, m: Times) returns (answer: Answer)
      requires Valid()
      modifies this
      ensures (Snapshot(), answer) == StepSignOut(old(Snapshot()), session, m)
      ensures InOrder(old(clock), m) ==> Valid() && Ages(old(Snapshot()), Snapshot())
      ensures answer.Done? && users == old(users) && sessions.Keys == old(sessions).Keys
      ensures forall sid :: sid in sessions ==>
                sessions[sid] == if session == Some(sid) then old(sessions)[sid].(active := false)
                    else old(sessions)[sid]
    {
      if InOrder(clock, m) {
        SignOutKeeps(cfg, Snapshot(), session, m);
      }
      clock := m.write;
      if session.Some? && session.value in sessions {
        sessions := sessions[session.value := sessions[session.value].(active := false)];
      }
      return Done;
    }

    /** `create_invite`: refused exactly when a user has the email; otherwise one invitation has it, unused and under
        the new token, and the other invitations stay. */
    method CreateInvite(owner: Id, email: string, invite: string, m: Times) returns (answer: Answer)
      requires Valid()
      modifies this
      ensures (Snapshot(), answer) == StepCreateInvite(cfg, old(Snapshot()), owner, email, invite, m)
      ensures InOrder(old(clock), m) && invite !in old(minted) ==> Valid() && Ages(old(Snapshot()), Snapshot())
      ensures answer == Failed(StateConflict) <==> exists id :: HasEmail(users, id, email)
      ensures answer.Failed? ==> invites == old(invites)
      ensures answer.Done? ==> exists i ::
                && i in invites && IsInviteFor(invites[i], email) && invites[i].token == invite && !invites[i].applied
                && (forall j :: j in invites && IsInviteFor(invites[j], email) ==> j == i)
                && invites - {i} == old(invites) - {i}
                && invites[i].expiredAt == ExpiryOf(m.access, cfg.invite) && invites[i].user.None?
                && invites[i].owner == if i in old(invites) then old(invites)[i].owner else owner
    {
      if InOrder(clock, m) && invite !in minted {
        InviteKeeps(cfg, Snapshot(), owner, email, invite, m);
      }
      InviteWrites(cfg, Snapshot(), owner, email, invite, m);
      clock := m.write;
      var taken := ByEmail(users, email);
      if taken.Some? {
        assert HasEmail(users, taken.value, email);
        return Failed(StateConflict);
      }
      var expiredAt := ExpiryOf(m.access, cfg.invite);
      var existing := InviteFor(invites, email);
      if existing.None? {
        invites := invites[nextId := Invite(email, invite, false, None, expiredAt, owner)];
        nextId := nextId + 1;
      } else {
        var row := invites[existing.value].(token := invite, expiredAt := expiredAt, applied := false, user := None);
        invites := invites[existing.value := row];
      }
      minted := minted + {invite};
      return Done;
    }

    /** `update_me`: a non-empty email of another user conflicts; otherwise only this user's row changes. */
    method UpdateMe(user: Id, newEmail: Option<string>, newPassword: Option<string>, m: Times) returns (answer: Answer)
      requires Valid()
      modifies this
      ensures (Snapshot(), answer) == StepUpdateMe(old(Snapshot()), user, newEmail, newPassword, m)
      ensures InOrder(old(clock), m) && newEmail != Some("") ==> Valid() && Ages(old(Snapshot()), Snapshot())
      ensures answer == Failed(StateConflict) <==>
                && user in old(users) && newEmail.GetOr("") != ""
                && exists other :: other != user && HasEmail(old(users), other, newEmail.GetOr(""))
      ensures answer.Failed? ==> users == old(users)
      ensures answer.Done? ==>
                && user in old(users) && user in users && users - {user} == old(users) - {user}
                && users[user].email == newEmail.GetOr(old(users)[user].email)
                && users[user].password == newPassword.GetOr(old(users)[user].password)
    {
      if InOrder(clock, m) && newEmail != Some("") {
        UpdateMeKeeps(cfg, Snapshot(), user, newEmail, newPassword, m);
      }
      UpdateMeAnswers(Snapshot(), user, newEmail, newPassword, m);
      clock := m.write;
      if user !in users {
        return Failed(AuthInvalid);
      }
      var row := users[user];
      if newEmail.Some? && newEmail.value != row.email && newEmail.value != "" {
        var existing := ByEmail(users, newEmail.value);
        if existing.Some? && existing.value != user {
          return Failed(StateConflict);
        }
      }
      users := users[user := row.(email := newEmail.GetOr(row.email), password := newPassword.GetOr(row.password))];
      return Done;
    }
  }
}
