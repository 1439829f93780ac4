/** Accounts, invitations and sessions as a state machine over a clock that never goes back. Every
    handler is one step: a refresh authenticates and updates in two units of work, so the claims here are
    for requests that do not overlap. */
module Accounts {
  import opened Wrappers
  import opened Clock
  import opened Rows
  import opened Sums
  import opened Tokens

  datatype Invite = Invite(email: string, token: string, applied: bool, user: Option<Id>, expiredAt: Moment, owner: Id)

  datatype Tables = Tables(
    users: map<Id, User>,
    sessions: map<string, Session>,
    invites: map<Id, Invite>,
    nextId: Id)

  /** The tables, the time of the last step, and what has ever been handed out: the tokens issued, the
      invitation tokens generated, and those a sign-up has used. */
  datatype System = System(db: Tables, clock: Moment, issued: set<Token>, minted: set<string>, spent: set<string>)

  const EMPTY_SYSTEM := System(Tables(map[], map[], map[], 1), 0, {}, {}, {})

  /** The times a request reads the clock, in order. */
  datatype Times = Times(decode: Moment, look: Moment, access: Moment, refresh: Moment, write: Moment)

  predicate InOrder(clock: Moment, m: Times) {
    clock <= m.decode <= m.look <= m.access <= m.refresh <= m.write
  }

  datatype Action =
    | SignIn(email: string, verified: bool, sid: string, times: Times)
    | WebLogin(email: string, verified: bool, sid: string, times: Times)
    | SignUp(email: string, password: string, invite: string, sid: string, times: Times)
    | Refresh(token: Token, times: Times)
    | SignOut(session: Option<string>, times: Times)
    | ResetPassword(email: string, times: Times)
    | ChangePassword(token: Token, password: string, times: Times)
    | CreateInvite(owner: Id, email: string, invite: string, times: Times)
    | UpdateMe(user: Id, newEmail: Option<string>, newPassword: Option<string>, times: Times)
    | SetActive(user: Id, active: bool, times: Times)

  /** What a handler answers: nothing to say, tokens, or an error. */
  datatype Answer = Done | Pair(access: Token, refreshed: Token) | Link(token: Token) | Failed(error: AuthError)

  predicate HasEmail(users: map<Id, User>, id: Id, email: string) {
    id in users && users[id].email == email
  }

  /** A query that answers with one row. The conditions asked below hold of at most one row in every
      reachable system, so it does not matter that the smallest id is taken. */
  function Pick(ids: set<Id>): (r: Option<Id>)
    ensures r.Some? ==> r.value in ids
    ensures r.None? ==> forall id :: id !in ids
  {
    if ids == {} then None
    else
      LeastExists(ids);
      var x :| IsLeast(ids, x);
      Some(x)
  }

  /** `get_by_email`. */
  function ByEmail(users: map<Id, User>, email: string): (r: Option<Id>)
    ensures r.Some? ==> HasEmail(users, r.value, email)
    ensures r.None? ==> forall id :: id in users ==> !HasEmail(users, id, email)
  {
    var rows := set id | id in users && HasEmail(users, id, email);
    assert forall id :: id in users && HasEmail(users, id, email) ==> id in rows;
    Pick(rows)
  }

  // -------- sessions

  /** `issue_token_pair`. */
  function IssuePair(cfg: Lifetimes, user: Id, sid: string, m: Times): (Token, Token, Moment) {
    var (access, _) := EncodeJwt(user, Some(sid), ACCESS, m.access, cfg.access);
    var (refresh, expiry) := EncodeJwt(user, Some(sid), REFRESH, m.refresh, cfg.refresh);
    (access, refresh, expiry)
  }

  /** `create_user_session`: the public id is unique. */
  function OpenSession(cfg: Lifetimes, s: System, user: Id, sid: string, m: Times): (System, Answer) {
    if sid in s.db.sessions then (s.(clock := m.write), Failed(IntegrityError))
    else
      var (access, refresh, expiry) := IssuePair(cfg, user, sid, m);
      var row := Session(user, Some(refresh), true, expiry, m.write, m.write);
      (s.(db := s.db.(sessions := s.db.sessions[sid := row]), clock := m.write, issued := s.issued + {access, refresh}),
       Pair(access, refresh))
  }

  /** `refresh_user_session`. */
  function RefreshSession(cfg: Lifetimes, s: System, token: Token, m: Times): (System, Answer) {
    match AuthenticateRefresh(s.db.users, s.db.sessions, token, m.decode, m.look)
    case Err(e) => (s.(clock := m.write), Failed(e))
    case Ok(sid) =>
      var (access, refresh, expiry) := IssuePair(cfg, s.db.sessions[sid].user, sid, m);
      var row := s.db.sessions[sid].(refresh := Some(refresh), expiredAt := expiry,
                                     refreshedAt := m.write, active := true);
      (s.(db := s.db.(sessions := s.db.sessions[sid := row]), clock := m.write, issued := s.issued + {access, refresh}),
       Pair(access, refresh))
  }

  function Deactivated(row: Session): Session {
    row.(active := false)
  }

  function DeactivateSession(sessions: map<string, Session>, sid: string): map<string, Session> {
    if sid in sessions then sessions[sid := Deactivated(sessions[sid])] else sessions
  }

  /** `deactivate_for_user`, a bulk update. */
  function DeactivateUser(sessions: map<string, Session>, user: Id): map<string, Session> {
    map sid | sid in sessions :: if sessions[sid].user == user then Deactivated(sessions[sid]) else sessions[sid]
  }

  // -------- handlers

  function StepSignIn(cfg: Lifetimes, s: System, email: string, verified: bool, sid: string,
                      m: Times): (System, Answer) {
    var found := ByEmail(s.db.users, email);
    if found.None? || !s.db.users[found.value].active || !verified then (s.(clock := m.write), Failed(AuthInvalid))
    else OpenSession(cfg, s, found.value, sid, m)
  }

  /** The cookie login: a session without a refresh token, also for inactive users. */
  function StepWebLogin(cfg: Lifetimes, s: System, email: string, verified: bool, sid: string,
                        m: Times): (System, Answer) {
    var found := ByEmail(s.db.users, email);
    if found.None? || !verified then (s.(clock := m.write), Failed(AuthInvalid))
    else if sid in s.db.sessions then (s.(clock := m.write), Failed(IntegrityError))
    else
      var row := Session(found.value, None, true, ExpiryOf(m.write, cfg.web), m.write, m.write);
      (s.(db := s.db.(sessions := s.db.sessions[sid := row]), clock := m.write), Done)
  }

  predicate IsValidInvite(i: Invite, token: string, email: string, now: Moment) {
    i.token == token && i.email == email && !i.applied && i.expiredAt > now
  }

  /** `get_valid`: invitation tokens are unique, so at most one row answers. */
  function ValidInvite(invites: map<Id, Invite>, token: string, email: string, now: Moment): (r: Option<Id>)
    ensures r.Some? ==> r.value in invites && IsValidInvite(invites[r.value], token, email, now)
    ensures r.None? ==> forall i :: i in invites ==> !IsValidInvite(invites[i], token, email, now)
  {
    var rows := set i | i in invites && IsValidInvite(invites[i], token, email, now);
    assert forall i :: i in invites && IsValidInvite(invites[i], token, email, now) ==> i in rows;
    Pick(rows)
  }

  function StepSignUp(cfg: Lifetimes, s: System, email: string, password: string, invite: string, sid: string,
                      m: Times): (System, Answer) {
    if ByEmail(s.db.users, email).Some? then (s.(clock := m.write), Failed(StateConflict))
    else
      var found := ValidInvite(s.db.invites, invite, email, m.look);
      if found.None? then (s.(clock := m.write), Failed(InvalidParameters))
      else
        OpenSession(cfg, Registered(s, email, password, invite, found.value), s.db.nextId, sid, m)
  }

  /** The first transaction of a sign-up: the user row, and the invitation marked as used by it. */
  function Registered(s: System, email: string, password: string, invite: string, row: Id): System
    requires row in s.db.invites
  {
    var id := s.db.nextId;
    s.(db := s.db.(users := s.db.users[id := User(email, password, true)],
                   invites := s.db.invites[row := s.db.invites[row].(applied := true, user := Some(id))],
                   nextId := id + 1),
       spent := s.spent + {invite})
  }

  function StepResetPassword(cfg: Lifetimes, s: System, email: string, m: Times): (System, Answer) {
    var found := ByEmail(s.db.users, email);
    if found.None? || !s.db.users[found.value].active then (s.(clock := m.write), Done)
    else
      var (token, _) := EncodeJwt(found.value, None, RESET_PASSWORD, m.access, cfg.reset);
      (s.(clock := m.write, issued := s.issued + {token}), Link(token))
  }

  function StepChangePassword(s: System, token: Token, password: string, m: Times): (System, Answer) {
    match DecodeJwt(token, RESET_PASSWORD, m.decode)
    case Err(e) => (s.(clock := m.write), Failed(e))
    case Ok(p) =>
      if p.user == 0 || p.user !in s.db.users || !s.db.users[p.user].active then
          (s.(clock := m.write), Failed(AuthInvalid))
      else
        var users := s.db.users[p.user := s.db.users[p.user].(password := password)];
        (s.(db := s.db.(users := users, sessions := DeactivateUser(s.db.sessions, p.user)), clock := m.write), Done)
  }

  predicate IsInviteFor(i: Invite, email: string) {
    i.email == email
  }

  /** The invitation row of an email; emails of invitations are unique. */
  function InviteFor(invites: map<Id, Invite>, email: string): (r: Option<Id>)
    ensures r.Some? ==> r.value in invites && IsInviteFor(invites[r.value], email)
    ensures r.None? ==> forall i :: i in invites ==> !IsInviteFor(invites[i], email)
  {
    var rows := set i | i in invites && IsInviteFor(invites[i], email);
    assert forall i :: i in invites && IsInviteFor(invites[i], email) ==> i in rows;
    Pick(rows)
  }

  /** Creates the invitation, or renews it: even a used one becomes usable again, under a new token. */
  function StepCreateInvite(cfg: Lifetimes, s: System, owner: Id, email: string, invite: string,
                            m: Times): (System, Answer) {
    if ByEmail(s.db.users, email).Some? then (s.(clock := m.write), Failed(StateConflict))
    else
      var found := InviteFor(s.db.invites, email);
      var expiry := ExpiryOf(m.access, cfg.invite);
      if found.Some? then
        var row := s.db.invites[found.value].(token := invite, expiredAt := expiry, applied := false, user := None);
        (s.(db := s.db.(invites := s.db.invites[found.value := row]),
            clock := m.write, minted := s.minted + {invite}), Done)
      else
        var row := Invite(email, invite, false, None, expiry, owner);
        (s.(db := s.db.(invites := s.db.invites[s.db.nextId := row], nextId := s.db.nextId + 1),
            clock := m.write, minted := s.minted + {invite}), Done)
  }

  function StepUpdateMe(s: System, user: Id, newEmail: Option<string>, newPassword: Option<string>,
                        m: Times): (System, Answer) {
    if user !in s.db.users then (s.(clock := m.write), Failed(AuthInvalid))
    else
      var row := s.db.users[user];
      var changes := newEmail.Some? && newEmail.value != row.email;
      var found := ByEmail(s.db.users, newEmail.GetOr(""));
      if changes && newEmail.value != "" && found.Some? && found.value != user then
          (s.(clock := m.write), Failed(StateConflict))
      else
        var updated := row.(email := newEmail.GetOr(row.email), password := newPassword.GetOr(row.password));
        (s.(db := s.db.(users := s.db.users[user := updated]), clock := m.write), Done)
  }

  function StepSetActive(s: System, user: Id, active: bool, m: Times): (System, Answer) {
    if user !in s.db.users then (s.(clock := m.write), Failed(AuthInvalid))
    else (s.(db := s.db.(users := s.db.users[user := s.db.users[user].(active := active)]), clock := m.write), Done)
  }

  function StepSignOut(s: System, session: Option<string>, m: Times): (System, Answer) {
    if session.None? then (s.(clock := m.write), Done)
    else (s.(db := s.db.(sessions := DeactivateSession(s.db.sessions, session.value)), clock := m.write), Done)
  }

  function Step(cfg: Lifetimes, s: System, a: Action): (System, Answer) {
    match a
    case SignIn(email, verified, sid, m) => StepSignIn(cfg, s, email, verified, sid, m)
    case WebLogin(email, verified, sid, m) => StepWebLogin(cfg, s, email, verified, sid, m)
    case SignUp(email, password, invite, sid, m) => StepSignUp(cfg, s, email, password, invite, sid, m)
    case Refresh(token, m) => RefreshSession(cfg, s, token, m)
    case SignOut(session, m) => StepSignOut(s, session, m)
    case ResetPassword(email, m) => StepResetPassword(cfg, s, email, m)
    case ChangePassword(token, password, m) => StepChangePassword(s, token, password, m)
    case CreateInvite(owner, email, invite, m) => StepCreateInvite(cfg, s, owner, email, invite, m)
    case UpdateMe(user, email, password, m) => StepUpdateMe(s, user, email, password, m)
    case SetActive(user, active, m) => StepSetActive(s, user, active, m)
  }

  /** Clocks do not go back, session ids and email addresses are not empty, and a generated invitation
      token is new. */
  predicate MayStep(s: System, a: Action) {
    && InOrder(s.clock, a.times)
    && (a.SignIn? || a.WebLogin? || a.SignUp? ==> a.sid != "")
    && (a.CreateInvite? ==> a.invite !in s.minted)
    && (a.UpdateMe? ==> a.newEmail != Some(""))
  }

  predicate MayRun(cfg: Lifetimes, s: System, actions: seq<Action>)
    decreases |actions|
  {
    actions == [] || (MayStep(s, actions[0]) && MayRun(cfg, Step(cfg, s, actions[0]).0, actions[1..]))
  }

  function Run(cfg: Lifetimes, s: System, actions: seq<Action>): System
    decreases |actions|
  {
    if actions == [] then s else Run(cfg, Step(cfg, s, actions[0]).0, actions[1..])
  }
}
