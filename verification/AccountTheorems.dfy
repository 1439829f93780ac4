/** What the account handlers promise over whole runs. */
module AccountTheorems {
  import opened Wrappers
  import opened Clock
  import opened Rows
  import opened Tokens
  import opened Accounts
  import opened AccountProofs

  lemma EmptyIsCoherent(cfg: Lifetimes)
    ensures Coherent(cfg, EMPTY_SYSTEM)
  {
  }

  /** Over every run from the empty system, an email names at most one user, and no two invitations share
      an email, a token or the user who applied them. */
  lemma ReachableIsCoherent(cfg: Lifetimes, actions: seq<Action>, i: Id, j: Id)
    requires MayRun(cfg, EMPTY_SYSTEM, actions) && i != j
    ensures
      var db := Run(cfg, EMPTY_SYSTEM, actions).db;
      && (i in db.users && j in db.users ==> db.users[i].email != db.users[j].email)
      && (i in db.invites && j in db.invites ==> InvitesApart(db.invites[i], db.invites[j]))
  {
    EmptyIsCoherent(cfg);
    RunKeeps(cfg, EMPTY_SYSTEM, actions);
  }

  function Bearer(s: System, token: Token, decoded: Moment, looked: Moment): Result<string, AuthError> {
    AuthenticateBearer(s.db.users, s.db.sessions, token, decoded, looked)
  }

  function Refreshing(s: System, token: Token, decoded: Moment, looked: Moment): (r: Result<string, AuthError>)
    ensures r.Ok? ==> token.Signed? && token.payload.session == Some(r.value)
                      && r.value in s.db.sessions && s.db.sessions[r.value].refresh == Some(token)
  {
    AuthenticateRefresh(s.db.users, s.db.sessions, token, decoded, looked)
  }

  // -------- one refresh token at a time

  /** After every run, the refresh token a session accepts is the newest ever issued for it: no issued token of the
      session expires later, the one that expires as late is this very token, and no other is accepted at any time. */
  lemma AcceptedRefreshIsNewest(cfg: Lifetimes, actions: seq<Action>, a: Token, t: Moment, u: Moment, b: Token,
                                v: Moment, w: Moment)
    requires MayRun(cfg, EMPTY_SYSTEM, actions) && Refreshing(Run(cfg, EMPTY_SYSTEM, actions), a, t, u).Ok?
    requires b in Run(cfg, EMPTY_SYSTEM, actions).issued && b.Signed? && b.payload.kind == REFRESH
    requires b.payload.session == a.payload.session
    ensures b.payload.exp <= a.payload.exp && (b.payload.exp == a.payload.exp <==> b == a)
    ensures Refreshing(Run(cfg, EMPTY_SYSTEM, actions), b, v, w).Ok? ==> b == a
  {
    EmptyIsCoherent(cfg);
    RunKeeps(cfg, EMPTY_SYSTEM, actions);
    StoredIsNewest(cfg, Run(cfg, EMPTY_SYSTEM, actions), a, t, u, b);
  }

  lemma StoredIsNewest(cfg: Lifetimes, s: System, a: Token, t: Moment, u: Moment, b: Token)
    requires Coherent(cfg, s) && Refreshing(s, a, t, u).Ok? && b in s.issued && b.Signed? && b.payload.kind == REFRESH
    requires b.payload.session == a.payload.session
    ensures b.payload.exp <= a.payload.exp && (b.payload.exp == a.payload.exp <==> b == a)
  {
    assert TokenFits(s.db, b);
  }

  lemma RefreshWrites(cfg: Lifetimes, s: System, token: Token, m: Times)
    requires Coherent(cfg, s) && InOrder(s.clock, m) && RefreshSession(cfg, s, token, m).1.Pair?
    ensures
      var (r, answer) := RefreshSession(cfg, s, token, m);
      var expiry := ExpiryOf(m.refresh, cfg.refresh);
      var sid := token.payload.session.GetOr("");
      && Refreshing(s, token, m.decode, m.look) == Ok(sid)
      && answer.refreshed == Signed(Payload(token.payload.user, Some(sid), REFRESH, WholeSeconds(expiry)))
      && sid in r.db.sessions && r.db.sessions[sid].active && r.db.sessions[sid].refresh == Some(answer.refreshed)
      && r.db.sessions[sid].expiredAt == expiry && r.db.sessions[sid].user == token.payload.user
      && r.db.users == s.db.users && token.payload.kind == REFRESH
  {
  }

  /** Once a refresh has issued a token, every refresh token the session accepts in any later run expires
      no earlier: a token with an earlier `exp` is never accepted again. */
  lemma RefreshRetiresEarlier(cfg: Lifetimes, s: System, token: Token, m: Times, actions: seq<Action>, t: Token,
                              decoded: Moment, looked: Moment)
    requires Coherent(cfg, s) && InOrder(s.clock, m) && RefreshSession(cfg, s, token, m).1.Pair?
    requires MayRun(cfg, RefreshSession(cfg, s, token, m).0, actions)
    requires t.Signed? && t.payload.session == token.payload.session
    requires t.payload.exp < RefreshSession(cfg, s, token, m).1.refreshed.payload.exp
    ensures Refreshing(Run(cfg, RefreshSession(cfg, s, token, m).0, actions), t, decoded, looked).Err?
  {
    var (r, answer) := RefreshSession(cfg, s, token, m);
    var later := Run(cfg, r, actions);
    RefreshWrites(cfg, s, token, m);
    RefreshKeeps(cfg, s, token, m);
    RunKeeps(cfg, r, actions);
    StoredExpiryGrows(cfg, r, later, token.payload.session.value);
  }

  lemma StoredExpiryGrows(cfg: Lifetimes, a: System, b: System, sid: string)
    requires Coherent(cfg, a) && Coherent(cfg, b) && Ages(a, b)
    requires sid in a.db.sessions && a.db.sessions[sid].refresh.Some?
    ensures sid in b.db.sessions && b.db.sessions[sid].refresh.Some? && b.db.sessions[sid].refresh.value.Signed?
    ensures a.db.sessions[sid].refresh.value.Signed?
    ensures a.db.sessions[sid].refresh.value.payload.exp <= b.db.sessions[sid].refresh.value.payload.exp
  {
  }

  /** Rotation is only as fine as the `exp` claim: the token just used is still good after the refresh
      exactly when the new expiry falls in the same whole second, for it is then the very same token. */
  lemma UsedTokenSurvivesIff(cfg: Lifetimes, s: System, token: Token, m: Times, decoded: Moment, looked: Moment)
    requires Coherent(cfg, s) && InOrder(s.clock, m) && RefreshSession(cfg, s, token, m).1.Pair?
    requires decoded < token.payload.exp * SECOND && looked < ExpiryOf(m.refresh, cfg.refresh)
    ensures Refreshing(RefreshSession(cfg, s, token, m).0, token, decoded, looked).Ok?
            <==> WholeSeconds(ExpiryOf(m.refresh, cfg.refresh)) == token.payload.exp
  {
  }

  // -------- which token opens which session

  /** The session that a payload names is open to it: there, active, not expired, and of the user it names, who is
      active. */
  predicate OpenTo(s: System, p: Payload, sid: string, looked: Moment) {
    && p.user != 0 && p.session == Some(sid) && sid != "" && sid in s.db.sessions
    && s.db.sessions[sid].active && looked < s.db.sessions[sid].expiredAt
    && s.db.sessions[sid].user == p.user && p.user in s.db.users && s.db.users[p.user].active
  }

  /** An access token opens a session exactly when it is unexpired and the session is open to it. */
  lemma BearerOpensIff(s: System, t: Token, decoded: Moment, looked: Moment, sid: string)
    ensures
      var decodes := t.Signed? && t.payload.kind.ACCESS? && decoded < t.payload.exp * SECOND;
      Bearer(s, t, decoded, looked) == Ok(sid) <==> decodes && OpenTo(s, t.payload, sid, looked)
  {
  }

  /** A refresh token does exactly when, besides, it is the one stored. */
  lemma RefreshOpensIff(s: System, t: Token, decoded: Moment, looked: Moment, sid: string)
    ensures
      var decodes := t.Signed? && t.payload.kind.REFRESH? && decoded < t.payload.exp * SECOND;
      Refreshing(s, t, decoded, looked) == Ok(sid) <==>
        decodes && OpenTo(s, t.payload, sid, looked) && s.db.sessions[sid].refresh == Some(t)
  {
  }

  // -------- deactivation is final

  /** No token opens the session. */
  ghost predicate Closed(s: System, sid: string) {
    forall t: Token, decoded: Moment, looked: Moment ::
      Bearer(s, t, decoded, looked) != Ok(sid) && Refreshing(s, t, decoded, looked) != Ok(sid)
  }

  /** A deactivated session stays deactivated in every later run, and no token, issued before or after,
      authenticates for it. */
  lemma DeactivatedForGood(cfg: Lifetimes, s: System, sid: string, actions: seq<Action>)
    requires Coherent(cfg, s) && MayRun(cfg, s, actions)
    requires sid in s.db.sessions && !s.db.sessions[sid].active
    ensures
      var later := Run(cfg, s, actions);
      sid in later.db.sessions && !later.db.sessions[sid].active && Closed(later, sid)
  {
    RunKeeps(cfg, s, actions);
    var later := Run(cfg, s, actions);
    assert RowAges(s.db.sessions[sid], later.db.sessions[sid]);
    forall t: Token, decoded: Moment, looked: Moment
      ensures Bearer(later, t, decoded, looked) != Ok(sid) && Refreshing(later, t, decoded, looked) != Ok(sid)
    {
      InactiveRefuses(later, sid, t, decoded, looked);
    }
  }

  lemma InactiveRefuses(s: System, sid: string, t: Token, decoded: Moment, looked: Moment)
    requires sid in s.db.sessions && !s.db.sessions[sid].active
    ensures Bearer(s, t, decoded, looked) != Ok(sid) && Refreshing(s, t, decoded, looked) != Ok(sid)
  {
  }

  /** Signing out closes the session for good. */
  lemma SignOutCloses(cfg: Lifetimes, s: System, sid: string, m: Times, actions: seq<Action>)
    requires Coherent(cfg, s) && InOrder(s.clock, m) && sid in s.db.sessions
    requires MayRun(cfg, StepSignOut(s, Some(sid), m).0, actions)
    ensures Closed(Run(cfg, StepSignOut(s, Some(sid), m).0, actions), sid)
  {
    SignOutKeeps(cfg, s, Some(sid), m);
    DeactivatedForGood(cfg, StepSignOut(s, Some(sid), m).0, sid, actions);
  }

  /** Changing the password takes the owner's reset token, stores the new password, and closes every session
      of that user for good, and of nobody else. */
  lemma ChangePasswordCloses(cfg: Lifetimes, s: System, token: Token, password: string, m: Times, sid: string,
                             actions: seq<Action>)
    requires Coherent(cfg, s) && InOrder(s.clock, m) && sid in s.db.sessions
    requires StepChangePassword(s, token, password, m).1.Done?
    requires MayRun(cfg, StepChangePassword(s, token, password, m).0, actions)
    ensures token.Signed? && token.payload.kind == RESET_PASSWORD && m.decode < token.payload.exp * SECOND
    ensures
      var r := StepChangePassword(s, token, password, m).0;
      var user := token.payload.user;
      && user in r.db.users && r.db.users == s.db.users[user := s.db.users[user].(password := password)]
      && (s.db.sessions[sid].user != user ==> sid in r.db.sessions && r.db.sessions[sid] == s.db.sessions[sid])
      && (s.db.sessions[sid].user == user ==> Closed(Run(cfg, r, actions), sid))
  {
    if s.db.sessions[sid].user == token.payload.user {
      ChangePasswordKeeps(cfg, s, token, password, m);
      DeactivatedForGood(cfg, StepChangePassword(s, token, password, m).0, sid, actions);
    }
  }

  // -------- tokens that were issued

  /** For a session token that was issued, the user it names is the user of the session's row: the mismatch
      check never fires. It is refused exactly when the session is not live or its user is inactive. */
  lemma IssuedUserMatches(cfg: Lifetimes, s: System, t: Token, now: Moment)
    requires Coherent(cfg, s) && t in s.issued && t.Signed? && t.payload.kind != RESET_PASSWORD
    ensures
      var sid := t.payload.session.GetOr("");
      var live := IsLive(s.db.users, s.db.sessions, sid, now);
      var r := CheckSession(s.db.users, s.db.sessions, t.payload, now);
      && (live ==> s.db.sessions[sid].user == t.payload.user)
      && (r == Err(SessionInactive) <==> !live)
      && (r == Err(AuthInvalid) <==> live && !s.db.users[t.payload.user].active)
      && (r == Ok(sid) <==> live && s.db.users[t.payload.user].active)
  {
  }

  /** The pair handed out for a new session opens it, each token strictly before its whole-second expiry,
      and neither token can be used as the other. */
  lemma NewSessionOpens(cfg: Lifetimes, s: System, user: Id, sid: string, m: Times, decoded: Moment, looked: Moment)
    requires user != 0 && user in s.db.users && s.db.users[user].active && sid != ""
    requires OpenSession(cfg, s, user, sid, m).1.Pair? && looked < ExpiryOf(m.refresh, cfg.refresh)
    ensures
      var (r, answer) := OpenSession(cfg, s, user, sid, m);
      var accessEnd, refreshEnd := WholeSeconds(ExpiryOf(m.access, cfg.access)),
          WholeSeconds(ExpiryOf(m.refresh, cfg.refresh));
      && (Bearer(r, answer.access, decoded, looked) == Ok(sid) <==> decoded < accessEnd * SECOND)
      && (Refreshing(r, answer.refreshed, decoded, looked) == Ok(sid) <==> decoded < refreshEnd * SECOND)
      && Bearer(r, answer.refreshed, decoded, looked).Err? && Refreshing(r, answer.access, decoded, looked).Err?
  {
  }

  /** And so does the pair a refresh answers with: each token opens the session until its own whole-second expiry, and
      neither can be used as the other. */
  lemma RefreshedPairOpens(cfg: Lifetimes, s: System, token: Token, m: Times, decoded: Moment, looked: Moment)
    requires Coherent(cfg, s) && InOrder(s.clock, m) && RefreshSession(cfg, s, token, m).1.Pair?
    requires looked < ExpiryOf(m.refresh, cfg.refresh)
    ensures
      var (r, answer) := RefreshSession(cfg, s, token, m);
      var sid := token.payload.session.GetOr("");
      var accessEnd := WholeSeconds(ExpiryOf(m.access, cfg.access));
      var refreshEnd := WholeSeconds(ExpiryOf(m.refresh, cfg.refresh));
      && (Bearer(r, answer.access, decoded, looked) == Ok(sid) <==> decoded < accessEnd * SECOND)
      && (Refreshing(r, answer.refreshed, decoded, looked) == Ok(sid) <==> decoded < refreshEnd * SECOND)
      && Bearer(r, answer.refreshed, decoded, looked).Err? && Refreshing(r, answer.access, decoded, looked).Err?
  {
    RefreshWrites(cfg, s, token, m);
    RefreshIssues(cfg, s, token, m);
  }

  lemma RefreshIssues(cfg: Lifetimes, s: System, token: Token, m: Times)
    requires RefreshSession(cfg, s, token, m).1.Pair?
    ensures
      var answer := RefreshSession(cfg, s, token, m).1;
      && token.Signed? && token.payload.session.Some? && token.payload.session.value != "" && token.payload.user != 0
      && answer.access == Signed(Payload(token.payload.user, token.payload.session, ACCESS,
                                         WholeSeconds(ExpiryOf(m.access, cfg.access))))
  {
  }

  // -------- who gets in

  /** Signing in opens a session exactly for an active user who has the email and gave the password, under an id that is
      not taken; whatever is refused changes no table. */
  lemma SignInMeans(cfg: Lifetimes, s: System, email: string, verified: bool, sid: string, m: Times, user: Id)
    requires Coherent(cfg, s) && HasEmail(s.db.users, user, email)
    ensures
      var (r, answer) := StepSignIn(cfg, s, email, verified, sid, m);
      && (answer.Pair? <==> verified && s.db.users[user].active && sid !in s.db.sessions)
      && (answer == Failed(AuthInvalid) <==> !verified || !s.db.users[user].active)
      && (answer.Pair? ==> sid in r.db.sessions && r.db.sessions[sid].user == user && r.db.sessions[sid].active)
      && (!answer.Pair? ==> answer.Failed? && r.db == s.db)
  {
  }

  /** Nobody signs in with an email that no user has. */
  lemma StrangerRefused(cfg: Lifetimes, s: System, email: string, verified: bool, sid: string, m: Times)
    requires forall user :: !HasEmail(s.db.users, user, email)
    ensures StepSignIn(cfg, s, email, verified, sid, m) == (s.(clock := m.write), Failed(AuthInvalid))
    ensures StepWebLogin(cfg, s, email, verified, sid, m) == (s.(clock := m.write), Failed(AuthInvalid))
  {
  }

  /** The cookie login asks for the password only, whether or not the user is active, and its session accepts no refresh
      token. */
  lemma WebLoginMeans(cfg: Lifetimes, s: System, email: string, verified: bool, sid: string, m: Times, user: Id,
                      t: Token, decoded: Moment, looked: Moment)
    requires Coherent(cfg, s) && HasEmail(s.db.users, user, email)
    ensures
      var (r, answer) := StepWebLogin(cfg, s, email, verified, sid, m);
      && (answer.Done? <==> verified && sid !in s.db.sessions) && (answer.Done? || answer.Failed?)
      && (answer.Done? ==>
            && sid in r.db.sessions && r.db.sessions == s.db.sessions[sid := r.db.sessions[sid]]
            && r.db.sessions[sid].user == user && r.db.sessions[sid].active
            && r.db.sessions[sid].expiredAt == ExpiryOf(m.write, cfg.web)
            && Refreshing(r, t, decoded, looked) != Ok(sid))
      && (answer.Failed? ==> r.db == s.db)
  {
  }

  /** While a user is inactive, no token opens a session of theirs. */
  lemma InactiveUserRefused(cfg: Lifetimes, s: System, user: Id, m: Times, t: Token, decoded: Moment, looked: Moment)
    requires Coherent(cfg, s) && user in s.db.users
    ensures
      var r := StepSetActive(s, user, false, m).0;
      var bearer, refreshing := Bearer(r, t, decoded, looked), Refreshing(r, t, decoded, looked);
      && (bearer.Ok? ==> r.db.sessions[bearer.value].user != user)
      && (refreshing.Ok? ==> r.db.sessions[refreshing.value].user != user)
  {
  }

  /** Activating again, with nothing in between, brings back what was. */
  lemma ActivationRestores(s: System, user: Id, m: Times, m2: Times)
    requires user in s.db.users && s.db.users[user].active
    ensures StepSetActive(StepSetActive(s, user, false, m).0, user, true, m2).0.db == s.db
  {
    var off := s.db.users[user := s.db.users[user].(active := false)];
    assert off[user := off[user].(active := true)] == s.db.users;
  }

  // -------- the reset link

  /** A link is sent exactly when an active user has the email, and its token names that user. */
  lemma ResetLinkNames(cfg: Lifetimes, s: System, email: string, m: Times, user: Id)
    requires Coherent(cfg, s) && HasEmail(s.db.users, user, email)
    ensures
      var (r, answer) := StepResetPassword(cfg, s, email, m);
      && r.db == s.db && (answer.Link? <==> s.db.users[user].active) && (!answer.Link? ==> answer.Done?)
      && (answer.Link? ==>
            answer.token == Signed(Payload(user, None, RESET_PASSWORD, WholeSeconds(ExpiryOf(m.access, cfg.reset)))))
  {
  }

  /** The link works in every later run: until its whole-second expiry, while the user is active, it changes that user's
      password, and only theirs. */
  lemma ResetLinkWorks(cfg: Lifetimes, s: System, email: string, m: Times, user: Id, actions: seq<Action>,
                       password: string,
                       m2: Times)
    requires Coherent(cfg, s) && InOrder(s.clock, m) && HasEmail(s.db.users, user, email)
    requires StepResetPassword(cfg, s, email, m).1.Link?
    requires MayRun(cfg, StepResetPassword(cfg, s, email, m).0, actions)
    ensures
      var (t, link) := StepResetPassword(cfg, s, email, m);
      var later := Run(cfg, t, actions);
      var (r, answer) := StepChangePassword(later, link.token, password, m2);
      && user in later.db.users
      && (answer.Done? <==>
            later.db.users[user].active && m2.decode < WholeSeconds(ExpiryOf(m.access, cfg.reset)) * SECOND)
      && (answer.Done? ==> r.db.users == later.db.users[user := later.db.users[user].(password := password)])
      && (!answer.Done? ==> r.db == later.db)
  {
    var t := StepResetPassword(cfg, s, email, m).0;
    ResetLinkNames(cfg, s, email, m, user);
    ResetKeeps(cfg, s, email, m);
    RunKeeps(cfg, t, actions);
    LinkChanges(cfg, Run(cfg, t, actions), user, WholeSeconds(ExpiryOf(m.access, cfg.reset)), password, m2);
  }

  lemma LinkChanges(cfg: Lifetimes, s: System, user: Id, exp: nat, password: string, m: Times)
    requires Coherent(cfg, s) && user in s.db.users
    ensures
      var (r, answer) := StepChangePassword(s, Signed(Payload(user, None, RESET_PASSWORD, exp)), password, m);
      && (answer.Done? <==> s.db.users[user].active && m.decode < exp * SECOND)
      && (answer.Done? ==> r.db.users == s.db.users[user := s.db.users[user].(password := password)])
      && (!answer.Done? ==> r.db == s.db)
  {
  }

  // -------- invitations

  lemma SpentIsRefused(cfg: Lifetimes, s: System, email: string, password: string, invite: string, sid: string,
                       m: Times)
    requires InvitesFit(s) && invite in s.spent
    ensures StepSignUp(cfg, s, email, password, invite, sid, m) == (s.(clock := m.write), Failed(StateConflict))
            || StepSignUp(cfg, s, email, password, invite, sid, m) == (s.(clock := m.write), Failed(InvalidParameters))
  {
  }

  /** An invitation token registers at most one user over every run, even when its row is renewed. */
  lemma InviteWorksOnce(cfg: Lifetimes, s: System, email: string, password: string, invite: string, sid: string,
                        m: Times,
                        actions: seq<Action>, email2: string, password2: string, sid2: string, m2: Times)
    requires Coherent(cfg, s) && InOrder(s.clock, m) && sid != ""
    requires StepSignUp(cfg, s, email, password, invite, sid, m).1.Pair?
    requires MayRun(cfg, StepSignUp(cfg, s, email, password, invite, sid, m).0, actions)
    ensures
      var later := Run(cfg, StepSignUp(cfg, s, email, password, invite, sid, m).0, actions);
      var (r, answer) := StepSignUp(cfg, later, email2, password2, invite, sid2, m2);
      answer.Failed? && r.db == later.db
  {
    var t := StepSignUp(cfg, s, email, password, invite, sid, m).0;
    SignUpKeeps(cfg, s, email, password, invite, sid, m);
    RunKeeps(cfg, t, actions);
    SpentIsRefused(cfg, Run(cfg, t, actions), email2, password2, invite, sid2, m2);
  }

  /** The invitation that lets this email in with this token now. */
  predicate LetsIn(i: Invite, token: string, email: string, now: Moment) {
    i.token == token && i.email == email && !i.applied && now < i.expiredAt
  }

  /** A sign-up registers somebody exactly when nobody has the email and an unused, unexpired invitation for it carries
      the token; otherwise it changes no table. */
  lemma SignUpMeans(cfg: Lifetimes, s: System, email: string, password: string, invite: string, sid: string, m: Times)
    requires Coherent(cfg, s)
    ensures
      var (r, answer) := StepSignUp(cfg, s, email, password, invite, sid, m);
      var taken := exists user :: HasEmail(s.db.users, user, email);
      var invited := exists i :: i in s.db.invites && LetsIn(s.db.invites[i], invite, email, m.look);
      && (answer == Failed(StateConflict) <==> taken)
      && (answer == Failed(InvalidParameters) <==> !taken && !invited)
      && (answer.Pair? <==> !taken && invited && sid !in s.db.sessions)
      && (!taken && invited ==> r.db.users == s.db.users[s.db.nextId := User(email, password, true)])
      && (taken || !invited ==> r.db == s.db)
  {
    var holder := ByEmail(s.db.users, email);
    if holder.Some? {
      assert HasEmail(s.db.users, holder.value, email);
    }
    var found := ValidInvite(s.db.invites, invite, email, m.look);
    if found.Some? {
      assert LetsIn(s.db.invites[found.value], invite, email, m.look);
    }
    forall i | i in s.db.invites && LetsIn(s.db.invites[i], invite, email, m.look) ensures found.Some? {
      assert IsValidInvite(s.db.invites[i], invite, email, m.look);
    }
  }

  /** An invitation lets its email in, with its token, until it expires, and no other email. */
  lemma InviteLetsIn(cfg: Lifetimes, s: System, owner: Id, email: string, invite: string, m: Times,
                     other: string, password: string, sid: string, m2: Times)
    requires Coherent(cfg, s) && InOrder(s.clock, m) && invite !in s.minted
    requires StepCreateInvite(cfg, s, owner, email, invite, m).1.Done? && sid !in s.db.sessions
    ensures
      var t := StepCreateInvite(cfg, s, owner, email, invite, m).0;
      StepSignUp(cfg, t, other, password, invite, sid, m2).1.Pair?
      <==> other == email && m2.look < ExpiryOf(m.access, cfg.invite)
  {
    var t := StepCreateInvite(cfg, s, owner, email, invite, m).0;
    InviteKeeps(cfg, s, owner, email, invite, m);
    SignUpMeans(cfg, t, other, password, invite, sid, m2);
    InviteRow(cfg, s, owner, email, invite, m);
    var i :| i in t.db.invites && t.db.invites[i].token == invite && t.db.invites[i].email == email
             && !t.db.invites[i].applied && t.db.invites[i].expiredAt == ExpiryOf(m.access, cfg.invite)
             && forall j :: j in t.db.invites && t.db.invites[j].token == invite ==> j == i;
    if other == email && m2.look < ExpiryOf(m.access, cfg.invite) {
      assert LetsIn(t.db.invites[i], invite, other, m2.look);
      assert forall user :: HasEmail(t.db.users, user, email) ==> HasEmail(s.db.users, user, email);
    }
  }

  lemma InviteRow(cfg: Lifetimes, s: System, owner: Id, email: string, invite: string, m: Times)
    requires Coherent(cfg, s) && invite !in s.minted && StepCreateInvite(cfg, s, owner, email, invite, m).1.Done?
    ensures
      var t := StepCreateInvite(cfg, s, owner, email, invite, m).0;
      && t.db.users == s.db.users && t.db.sessions == s.db.sessions
      && exists i ::
           && i in t.db.invites && t.db.invites[i].token == invite && t.db.invites[i].email == email
           && !t.db.invites[i].applied && t.db.invites[i].expiredAt == ExpiryOf(m.access, cfg.invite)
           && forall j :: j in t.db.invites && t.db.invites[j].token == invite ==> j == i
  {
    var t := StepCreateInvite(cfg, s, owner, email, invite, m).0;
    var target := InviteFor(s.db.invites, email).GetOr(s.db.nextId);
    assert forall j :: j in s.db.invites ==> InviteFits(s.db, s.minted, s.spent, j);
    assert target in t.db.invites && t.db.invites[target].token == invite && t.db.invites[target].email == email;
  }
}
