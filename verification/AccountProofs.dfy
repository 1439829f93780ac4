/** What every sequential run of the account handlers keeps true. */
module AccountProofs {
  import opened Wrappers
  import opened Clock
  import opened Rows
  import opened Tokens
  import opened Accounts

  ghost predicate UsersFit(db: Tables) {
    && 0 < db.nextId && (forall id :: id in db.users ==> 0 < id < db.nextId)
    && (forall i, j :: i in db.users && j in db.users && db.users[i].email == db.users[j].email ==> i == j)
  }

  /** The stored refresh token was cut from the stored expiry, for this session and its user. */
  ghost predicate SessionFits(cfg: Lifetimes, clock: Moment, sid: string, row: Session) {
    row.refresh.Some? ==>
      && row.refresh.value == Signed(Payload(row.user, Some(sid), REFRESH, WholeSeconds(row.expiredAt)))
      && row.expiredAt <= ExpiryOf(clock, cfg.refresh)
  }

  ghost predicate SessionsFit(cfg: Lifetimes, s: System) {
    forall sid :: sid in s.db.sessions ==>
      sid != "" && s.db.sessions[sid].user in s.db.users && SessionFits(cfg, s.clock, sid, s.db.sessions[sid])
  }

  /** A session token belongs to the user of its session's row, and expires no later than that row. */
  ghost predicate TokenFits(db: Tables, t: Token) {
    && t.Signed?
    && (!t.payload.kind.RESET_PASSWORD? ==>
          && t.payload.session.Some? && t.payload.session.value in db.sessions
          && db.sessions[t.payload.session.value].user == t.payload.user
          && (t.payload.kind.REFRESH? ==>
                && db.sessions[t.payload.session.value].refresh.Some?
                && t.payload.exp <= WholeSeconds(db.sessions[t.payload.session.value].expiredAt)))
  }

  ghost predicate IssuedFit(s: System) {
    forall t :: t in s.issued ==> TokenFits(s.db, t)
  }

  ghost predicate InviteFits(db: Tables, minted: set<string>, spent: set<string>, i: Id)
    requires i in db.invites
  {
    && i < db.nextId && db.invites[i].token in minted
    && (db.invites[i].applied <==> db.invites[i].token in spent)
    && (db.invites[i].applied <==> db.invites[i].user.Some?)
    && (db.invites[i].user.Some? ==> db.invites[i].user.value in db.users)
  }

  ghost predicate InvitesApart(a: Invite, b: Invite) {
    a.email != b.email && a.token != b.token && (a.user.Some? ==> a.user != b.user)
  }

  ghost predicate InvitesFit(s: System) {
    && s.spent <= s.minted
    && (forall i :: i in s.db.invites ==> InviteFits(s.db, s.minted, s.spent, i))
    && (forall i, j :: i in s.db.invites && j in s.db.invites && i != j ==>
        InvitesApart(s.db.invites[i], s.db.invites[j]))
  }

  ghost predicate Coherent(cfg: Lifetimes, s: System) {
    UsersFit(s.db) && SessionsFit(cfg, s) && IssuedFit(s) && InvitesFit(s)
  }

  // -------- what only grows

  /** A session row keeps its user and its having a refresh token, its expiry does not go back while it
      has one, and it is never reactivated. */
  ghost predicate RowAges(a: Session, b: Session) {
    && b.user == a.user && (b.active ==> a.active)
    && (a.refresh.Some? ==> b.refresh.Some? && a.expiredAt <= b.expiredAt)
  }

  ghost predicate SessionsAge(a: map<string, Session>, b: map<string, Session>) {
    forall sid :: sid in a ==> sid in b && RowAges(a[sid], b[sid])
  }

  ghost predicate Ages(a: System, b: System) {
    && a.clock <= b.clock && a.issued <= b.issued && a.minted <= b.minted && a.spent <= b.spent
    && a.db.users.Keys <= b.db.users.Keys && SessionsAge(a.db.sessions, b.db.sessions)
  }

  lemma AgesOn(a: System, b: System, c: System)
    requires Ages(a, b) && Ages(b, c)
    ensures Ages(a, c)
  {
  }

  lemma IssuedStayFit(a: System, b: System)
    requires Ages(a, b) && IssuedFit(a)
    requires forall t :: t in b.issued && t !in a.issued ==> TokenFits(b.db, t)
    ensures IssuedFit(b)
  {
  }

  // -------- writing one session row

  /** `s` with one session row written, a pair issued for it, and the clock moved. */
  function Written(s: System, sid: string, row: Session, tokens: set<Token>, clock: Moment): System {
    s.(db := s.db.(sessions := s.db.sessions[sid := row]), clock := clock, issued := s.issued + tokens)
  }

  lemma WrittenAges(s: System, sid: string, row: Session, tokens: set<Token>, clock: Moment)
    requires s.clock <= clock && (sid in s.db.sessions ==> RowAges(s.db.sessions[sid], row))
    ensures Ages(s, Written(s, sid, row, tokens, clock))
  {
  }

  lemma WrittenFits(cfg: Lifetimes, s: System, sid: string, row: Session, tokens: set<Token>, clock: Moment)
    requires Coherent(cfg, s) && s.clock <= clock && (sid in s.db.sessions ==> RowAges(s.db.sessions[sid], row))
    requires sid != "" && row.user in s.db.users && SessionFits(cfg, clock, sid, row)
    requires forall t :: t in tokens ==> TokenFits(Written(s, sid, row, tokens, clock).db, t)
    ensures Coherent(cfg, Written(s, sid, row, tokens, clock)) && Ages(s, Written(s, sid, row, tokens, clock))
  {
    var r := Written(s, sid, row, tokens, clock);
    WrittenAges(s, sid, row, tokens, clock);
    IssuedStayFit(s, r);
    forall i | i in r.db.invites ensures InviteFits(r.db, r.minted, r.spent, i) {
      assert InviteFits(s.db, s.minted, s.spent, i);
    }
  }

  lemma PairFits(cfg: Lifetimes, user: Id, sid: string, m: Times, db: Tables)
    requires sid in db.sessions && db.sessions[sid].user == user && db.sessions[sid].refresh.Some?
    requires db.sessions[sid].expiredAt == IssuePair(cfg, user, sid, m).2
    ensures TokenFits(db, IssuePair(cfg, user, sid, m).0) && TokenFits(db, IssuePair(cfg, user, sid, m).1)
  {
  }

  // -------- steps that leave session rows alone, up to deactivation

  lemma UntouchedFits(cfg: Lifetimes, s: System, r: System)
    requires Coherent(cfg, s) && Ages(s, r) && r.db.sessions == s.db.sessions && r.issued == s.issued
    requires UsersFit(r.db) && InvitesFit(r)
    ensures Coherent(cfg, r)
  {
  }

  lemma DeactivationFits(cfg: Lifetimes, s: System, r: System)
    requires Coherent(cfg, s) && Ages(s, r) && r.issued == s.issued
    requires r.db.sessions.Keys == s.db.sessions.Keys
    requires forall sid :: sid in s.db.sessions ==>
               r.db.sessions[sid] == s.db.sessions[sid] || r.db.sessions[sid] == Deactivated(s.db.sessions[sid])
    requires UsersFit(r.db) && InvitesFit(r)
    ensures Coherent(cfg, r)
  {
    IssuedStayFit(s, r);
    forall sid | sid in r.db.sessions ensures SessionFits(cfg, r.clock, sid, r.db.sessions[sid]) {
      assert SessionFits(cfg, s.clock, sid, s.db.sessions[sid]);
    }
  }

  lemma ClockMoves(cfg: Lifetimes, s: System, clock: Moment)
    requires Coherent(cfg, s) && s.clock <= clock
    ensures Coherent(cfg, s.(clock := clock)) && Ages(s, s.(clock := clock))
  {
  }

  /** Changing users without removing any keeps invitations in order. */
  lemma InvitesStay(s: System, r: System)
    requires InvitesFit(s) && r.minted == s.minted && r.spent == s.spent && r.db.invites == s.db.invites
    requires s.db.users.Keys <= r.db.users.Keys && s.db.nextId <= r.db.nextId
    ensures InvitesFit(r)
  {
  }

  // -------- the handlers

  lemma OpenSessionKeeps(cfg: Lifetimes, s: System, user: Id, sid: string, m: Times)
    requires Coherent(cfg, s) && InOrder(s.clock, m) && user in s.db.users && sid != ""
    ensures Coherent(cfg, OpenSession(cfg, s, user, sid, m).0) && Ages(s, OpenSession(cfg, s, user, sid, m).0)
  {
    if sid in s.db.sessions {
      ClockMoves(cfg, s, m.write);
    } else {
      var (access, refresh, expiry) := IssuePair(cfg, user, sid, m);
      var row := Session(user, Some(refresh), true, expiry, m.write, m.write);
      PairFits(cfg, user, sid, m, Written(s, sid, row, {access, refresh}, m.write).db);
      WrittenFits(cfg, s, sid, row, {access, refresh}, m.write);
    }
  }

  lemma RefreshKeeps(cfg: Lifetimes, s: System, token: Token, m: Times)
    requires Coherent(cfg, s) && InOrder(s.clock, m)
    ensures Coherent(cfg, RefreshSession(cfg, s, token, m).0) && Ages(s, RefreshSession(cfg, s, token, m).0)
  {
    var auth := AuthenticateRefresh(s.db.users, s.db.sessions, token, m.decode, m.look);
    if auth.Err? {
      ClockMoves(cfg, s, m.write);
    } else {
      var sid := auth.value;
      var row0 := s.db.sessions[sid];
      var (access, refresh, expiry) := IssuePair(cfg, row0.user, sid, m);
      var row := row0.(refresh := Some(refresh), expiredAt := expiry, refreshedAt := m.write, active := true);
      assert SessionFits(cfg, s.clock, sid, row0);
      PairFits(cfg, row0.user, sid, m, Written(s, sid, row, {access, refresh}, m.write).db);
      WrittenFits(cfg, s, sid, row, {access, refresh}, m.write);
    }
  }

  lemma WebLoginKeeps(cfg: Lifetimes, s: System, email: string, verified: bool, sid: string, m: Times)
    requires Coherent(cfg, s) && InOrder(s.clock, m) && sid != ""
    ensures
      var r := StepWebLogin(cfg, s, email, verified, sid, m).0;
      Coherent(cfg, r) && Ages(s, r)
  {
    ClockMoves(cfg, s, m.write);
    var found := ByEmail(s.db.users, email);
    if found.Some? && verified && sid !in s.db.sessions {
      var row := Session(found.value, None, true, ExpiryOf(m.write, cfg.web), m.write, m.write);
      WrittenFits(cfg, s, sid, row, {}, m.write);
      assert s.issued + {} == s.issued;
    }
  }

  lemma RegisteredKeeps(cfg: Lifetimes, s: System, email: string, password: string, invite: string, row: Id)
    requires Coherent(cfg, s) && ByEmail(s.db.users, email).None?
    requires row in s.db.invites && s.db.invites[row].token == invite && !s.db.invites[row].applied
    ensures
      var r := Registered(s, email, password, invite, row);
      Coherent(cfg, r) && Ages(s, r) && s.db.nextId in r.db.users
  {
    var r := Registered(s, email, password, invite, row);
    RegisteredUsers(s, email, password, invite, row);
    RegisteredInvites(s, email, password, invite, row);
    UntouchedFits(cfg, s, r);
  }

  lemma RegisteredUsers(s: System, email: string, password: string, invite: string, row: Id)
    requires UsersFit(s.db) && ByEmail(s.db.users, email).None? && row in s.db.invites
    ensures UsersFit(Registered(s, email, password, invite, row).db)
  {
  }

  lemma RegisteredInvites(s: System, email: string, password: string, invite: string, row: Id)
    requires UsersFit(s.db) && InvitesFit(s)
    requires row in s.db.invites && s.db.invites[row].token == invite && !s.db.invites[row].applied
    ensures InvitesFit(Registered(s, email, password, invite, row))
  {
    var r := Registered(s, email, password, invite, row);
    assert InviteFits(s.db, s.minted, s.spent, row);
    forall i | i in r.db.invites ensures InviteFits(r.db, r.minted, r.spent, i) {
      assert InviteFits(s.db, s.minted, s.spent, i);
      if i != row {
        assert InvitesApart(s.db.invites[i], s.db.invites[row]);
      }
    }
    forall i, j | i in r.db.invites && j in r.db.invites && i != j
      ensures InvitesApart(r.db.invites[i], r.db.invites[j])
    {
      assert InvitesApart(s.db.invites[i], s.db.invites[j]);
      assert InviteFits(s.db, s.minted, s.spent, i) && InviteFits(s.db, s.minted, s.spent, j);
    }
  }

  lemma SignUpKeeps(cfg: Lifetimes, s: System, email: string, password: string, invite: string, sid: string, m: Times)
    requires Coherent(cfg, s) && InOrder(s.clock, m) && sid != ""
    ensures
      var r := StepSignUp(cfg, s, email, password, invite, sid, m).0;
      Coherent(cfg, r) && Ages(s, r)
  {
    ClockMoves(cfg, s, m.write);
    var found := ValidInvite(s.db.invites, invite, email, m.look);
    if ByEmail(s.db.users, email).None? && found.Some? {
      var mid := Registered(s, email, password, invite, found.value);
      RegisteredKeeps(cfg, s, email, password, invite, found.value);
      OpenSessionKeeps(cfg, mid, s.db.nextId, sid, m);
      AgesOn(s, mid, OpenSession(cfg, mid, s.db.nextId, sid, m).0);
    }
  }

  lemma SignOutKeeps(cfg: Lifetimes, s: System, session: Option<string>, m: Times)
    requires Coherent(cfg, s) && InOrder(s.clock, m)
    ensures Coherent(cfg, StepSignOut(s, session, m).0) && Ages(s, StepSignOut(s, session, m).0)
  {
    if session.None? {
      ClockMoves(cfg, s, m.write);
    } else {
      var r := StepSignOut(s, session, m).0;
      InvitesStay(s, r);
      DeactivationFits(cfg, s, r);
    }
  }

  lemma ResetKeeps(cfg: Lifetimes, s: System, email: string, m: Times)
    requires Coherent(cfg, s) && InOrder(s.clock, m)
    ensures
      var r := StepResetPassword(cfg, s, email, m).0;
      Coherent(cfg, r) && Ages(s, r)
  {
  }

  lemma ChangePasswordKeeps(cfg: Lifetimes, s: System, token: Token, password: string, m: Times)
    requires Coherent(cfg, s) && InOrder(s.clock, m)
    ensures
      var r := StepChangePassword(s, token, password, m).0;
      Coherent(cfg, r) && Ages(s, r)
  {
    ClockMoves(cfg, s, m.write);
    var (r, answer) := StepChangePassword(s, token, password, m);
    if answer.Done? {
      InvitesStay(s, r);
      DeactivationFits(cfg, s, r);
    }
  }

  lemma UsersStepKeeps(cfg: Lifetimes, s: System, users: map<Id, User>, clock: Moment)
    requires Coherent(cfg, s) && s.clock <= clock && users.Keys == s.db.users.Keys
    requires UsersFit(s.db.(users := users))
    ensures
      var r := s.(db := s.db.(users := users), clock := clock);
      Coherent(cfg, r) && Ages(s, r)
  {
  }

  lemma UpdateMeKeeps(cfg: Lifetimes, s: System, user: Id, newEmail: Option<string>, newPassword: Option<string>,
                      m: Times)
    requires Coherent(cfg, s) && InOrder(s.clock, m) && newEmail != Some("")
    ensures
      var r := StepUpdateMe(s, user, newEmail, newPassword, m).0;
      Coherent(cfg, r) && Ages(s, r)
  {
    ClockMoves(cfg, s, m.write);
    var (r, answer) := StepUpdateMe(s, user, newEmail, newPassword, m);
    if answer.Done? {
      forall j | j in s.db.users && j != user ensures s.db.users[j].email != newEmail.GetOr(s.db.users[user].email) {
        assert ByEmail(s.db.users, newEmail.GetOr("")).None? ==> !HasEmail(s.db.users, j, newEmail.GetOr(""));
      }
      UsersStepKeeps(cfg, s, r.db.users, m.write);
    }
  }

  lemma InviteKeeps(cfg: Lifetimes, s: System, owner: Id, email: string, invite: string, m: Times)
    requires Coherent(cfg, s) && InOrder(s.clock, m) && invite !in s.minted
    ensures
      var r := StepCreateInvite(cfg, s, owner, email, invite, m).0;
      Coherent(cfg, r) && Ages(s, r)
  {
    ClockMoves(cfg, s, m.write);
    var (r, answer) := StepCreateInvite(cfg, s, owner, email, invite, m);
    if answer.Done? {
      InvitedFits(cfg, s, owner, email, invite, m);
      UntouchedFits(cfg, s, r);
    }
  }

  lemma InvitedFits(cfg: Lifetimes, s: System, owner: Id, email: string, invite: string, m: Times)
    requires InvitesFit(s) && invite !in s.minted && StepCreateInvite(cfg, s, owner, email, invite, m).1.Done?
    ensures InvitesFit(StepCreateInvite(cfg, s, owner, email, invite, m).0)
  {
    var r := StepCreateInvite(cfg, s, owner, email, invite, m).0;
    var target := InviteFor(s.db.invites, email).GetOr(s.db.nextId);
    forall i | i in r.db.invites ensures InviteFits(r.db, r.minted, r.spent, i) {
      if i != target {
        assert InviteFits(s.db, s.minted, s.spent, i);
      }
    }
    forall i, j | i in r.db.invites && j in r.db.invites && i != j
      ensures InvitesApart(r.db.invites[i], r.db.invites[j])
    {
      if i != target {
        assert InviteFits(s.db, s.minted, s.spent, i);
      }
      if j != target {
        assert InviteFits(s.db, s.minted, s.spent, j);
      }
      if i != target && j != target {
        assert InvitesApart(s.db.invites[i], s.db.invites[j]);
      } else if target in s.db.invites {
        assert InvitesApart(s.db.invites[i], s.db.invites[j]);
      } else {
        assert i in s.db.invites ==> !IsInviteFor(s.db.invites[i], email);
        assert j in s.db.invites ==> !IsInviteFor(s.db.invites[j], email);
      }
    }
  }

  /** Every handler keeps accounts coherent, and sessions only age. */
  lemma StepKeeps(cfg: Lifetimes, s: System, a: Action)
    requires Coherent(cfg, s) && MayStep(s, a)
    ensures Coherent(cfg, Step(cfg, s, a).0) && Ages(s, Step(cfg, s, a).0)
  {
    ClockMoves(cfg, s, a.times.write);
    match a
    case SignIn(email, verified, sid, m) =>
      var found := ByEmail(s.db.users, email);
      if found.Some? {
        OpenSessionKeeps(cfg, s, found.value, sid, m);
      }
    case WebLogin(email, verified, sid, m) => WebLoginKeeps(cfg, s, email, verified, sid, m);
    case SignUp(email, password, invite, sid, m) => SignUpKeeps(cfg, s, email, password, invite, sid, m);
    case Refresh(token, m) => RefreshKeeps(cfg, s, token, m);
    case SignOut(session, m) => SignOutKeeps(cfg, s, session, m);
    case ResetPassword(email, m) => ResetKeeps(cfg, s, email, m);
    case ChangePassword(token, password, m) => ChangePasswordKeeps(cfg, s, token, password, m);
    case CreateInvite(owner, email, invite, m) => InviteKeeps(cfg, s, owner, email, invite, m);
    case UpdateMe(user, email, password, m) => UpdateMeKeeps(cfg, s, user, email, password, m);
    case SetActive(user, active, m) =>
      if user in s.db.users {
        UsersStepKeeps(cfg, s, s.db.users[user := s.db.users[user].(active := active)], m.write);
      }
  }

  lemma {:induction false} RunKeeps(cfg: Lifetimes, s: System, actions: seq<Action>)
    requires Coherent(cfg, s) && MayRun(cfg, s, actions)
    ensures Coherent(cfg, Run(cfg, s, actions)) && Ages(s, Run(cfg, s, actions))
    decreases |actions|
  {
    if actions != [] {
      var t := Step(cfg, s, actions[0]).0;
      StepKeeps(cfg, s, actions[0]);
      RunKeeps(cfg, t, actions[1..]);
      AgesOn(s, t, Run(cfg, t, actions[1..]));
    }
  }
}
