/** Signed tokens, sessions, and the three ways a token is judged. */
module Tokens {
  import opened Wrappers
  import opened Clock
  import opened Rows

  datatype TokenType = ACCESS | REFRESH | RESET_PASSWORD

  datatype Payload = Payload(user: Id, session: Option<string>, kind: TokenType, exp: nat)

  /** Signing is deterministic and decoding inverts it, so a token is what was signed; every other text
      fails to decode. */
  datatype Token = Signed(payload: Payload) | Unsigned(text: string)

  datatype AuthError =
    | TokenExpired
    | RefreshExpired
    | AuthInvalid
    | SessionInactive
    | StateConflict
    | InvalidParameters
    | IntegrityError

  /** Lifetimes in seconds. */
  datatype Lifetimes = Lifetimes(access: nat, refresh: nat, reset: nat, web: nat, invite: nat)

  function ExpiryOf(now: Moment, lifetime: nat): Moment {
    now + lifetime * SECOND
  }

  /** `encode_jwt`: the token, and the exact expiry it was cut from. */
  function EncodeJwt(user: Id, session: Option<string>, kind: TokenType, now: Moment, lifetime: nat): (Token, Moment) {
    (Signed(Payload(user, session, kind, WholeSeconds(ExpiryOf(now, lifetime)))), ExpiryOf(now, lifetime))
  }

  /** `decode_jwt`: the expiry of section 4.1.4 of RFC 7519 is checked before the type. */
  function DecodeJwt(token: Token, expected: TokenType, now: Moment): Result<Payload, AuthError> {
    match token
    case Unsigned(_) => Err(AuthInvalid)
    case Signed(p) =>
      if p.exp * SECOND <= now then Err(if expected.REFRESH? then RefreshExpired else TokenExpired)
      else if p.kind != expected then Err(AuthInvalid)
      else Ok(p)
  }

  /** A token decodes as its own type, to what was signed, strictly before its whole-second expiry, and as no other
      type at any time. It expires its lifetime after the whole second in which it was signed. Lateness is told
      before the wrong type, and as its own error for a refresh. */
  lemma DecodeInvertsEncode(user: Id, session: Option<string>, kind: TokenType, now: Moment, lifetime: nat,
                            expected: TokenType, later: Moment)
    ensures
      var (token, expiry) := EncodeJwt(user, session, kind, now, lifetime);
      var r := DecodeJwt(token, expected, later);
      && (r.Ok? <==> kind == expected && later < WholeSeconds(expiry) * SECOND)
      && (r.Ok? ==> r.value.user == user && r.value.session == session)
      && (r == Err(AuthInvalid) <==> kind != expected && later < WholeSeconds(expiry) * SECOND)
      && (later >= WholeSeconds(expiry) * SECOND ==>
          r == Err(if expected.REFRESH? then RefreshExpired else TokenExpired))
      && WholeSeconds(expiry) * SECOND <= expiry < WholeSeconds(expiry) * SECOND + SECOND
      && expiry == now + 1_000_000 * lifetime && WholeSeconds(expiry) == now / 1_000_000 + lifetime
  {
  }

  // -------- rows

  datatype User = User(email: string, password: string, active: bool)

  datatype Session = Session(user: Id, refresh: Option<Token>, active: bool, expiredAt: Moment, createdAt: Moment,
      refreshedAt: Moment)

  /** `get_active_with_user`, an inner join with the user. */
  predicate IsLive(users: map<Id, User>, sessions: map<string, Session>, sid: string, now: Moment) {
    sid in sessions && sessions[sid].user in users && sessions[sid].active && sessions[sid].expiredAt > now
  }

  /** The checks shared by bearer and refresh authentication, after decoding. */
  function CheckSession(users: map<Id, User>, sessions: map<string, Session>, p: Payload,
                        now: Moment): (r: Result<string, AuthError>)
    ensures r.Ok? ==> IsLive(users, sessions, r.value, now) && p.session == Some(r.value)
                      && sessions[r.value].user == p.user && users[p.user].active
    ensures p.user != 0 && p.session.GetOr("") != "" ==>
              && (r == Err(SessionInactive) <==> !IsLive(users, sessions, p.session.value, now))
              && (r.Err? && r.error != SessionInactive <==>
                    IsLive(users, sessions, p.session.value, now)
                    && (sessions[p.session.value].user != p.user || !users[p.user].active))
  {
    if p.user == 0 || p.session.GetOr("") == "" then Err(AuthInvalid)
    else
      var sid := p.session.value;
      if !IsLive(users, sessions, sid, now) then Err(SessionInactive)
      else if sessions[sid].user != p.user || !users[p.user].active then Err(AuthInvalid)
      else Ok(sid)
  }

  /** `authenticate_bearer_request` for a JWT: decoded at `decoded`, looked up at `looked`. */
  function AuthenticateBearer(users: map<Id, User>, sessions: map<string, Session>, token: Token,
                              decoded: Moment, looked: Moment): Result<string, AuthError>
  {
    match DecodeJwt(token, ACCESS, decoded)
    case Err(e) => Err(e)
    case Ok(p) => CheckSession(users, sessions, p, looked)
  }

  /** `authenticate_refresh_token`. */
  function AuthenticateRefresh(users: map<Id, User>, sessions: map<string, Session>, token: Token,
                               decoded: Moment, looked: Moment): (r: Result<string, AuthError>)
    ensures r.Ok? ==>
              && token.Signed? && token.payload.kind == REFRESH && decoded < token.payload.exp * SECOND
              && IsLive(users, sessions, r.value, looked) && sessions[r.value].refresh == Some(token)
              && sessions[r.value].user == token.payload.user && users[token.payload.user].active
  {
    match DecodeJwt(token, REFRESH, decoded)
    case Err(e) => Err(e)
    case Ok(p) =>
      match CheckSession(users, sessions, p, looked)
      case Err(e) => Err(e)
      case Ok(sid) => if sessions[sid].refresh == Some(token) then Ok(sid) else Err(AuthInvalid)
  }
}
