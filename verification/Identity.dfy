/** Account authority: trial deadlines, account sessions, enrollment grants and the checks that
    the identity package contributes to device transactions. */
module Identity {
  import opened Schema

  const GRACE: Time := DAY
  const ACCESS_TTL: Time := 10 * MINUTE
  const IDLE_TTL: Time := 30 * DAY
  const ABSOLUTE_TTL: Time := 90 * DAY
  const GRANT_TTL: Time := 10 * MINUTE

  function Min(a: Time, b: Time): Time { if a <= b then a else b }

  // accountFixedGraceDeadline
  function GraceDeadline(account: Account, now: Time): Option<Time> {
    if account.state.PendingEmail? && account.createdAt <= now < account.createdAt + GRACE
    then Some(account.createdAt + GRACE) else None
  }

  /** Whether an account may hold authority now, and until when. */
  datatype Deadline = Ineligible | Unlimited | Until(at: Time)

  // accountAuthorityDeadline
  function AuthorityDeadline(mode: Mode, account: Account, now: Time): Deadline {
    if account.state.AccountActive? then Unlimited
    else if mode.EmailGrace? && GraceDeadline(account, now).Some? then Until(GraceDeadline(account, now).value)
    else Ineligible
  }

  function Cap(t: Time, deadline: Deadline): Time { if deadline.Until? then Min(t, deadline.at) else t }

  datatype SessionTimes = SessionTimes(access: Time, idle: Time, absolute: Time)

  // newSessionTokensUntil
  function NewSessionTimes(now: Time, deadline: Deadline): SessionTimes {
    SessionTimes(Cap(now + ACCESS_TTL, deadline), Cap(now + IDLE_TTL, deadline), Cap(now + ABSOLUTE_TTL, deadline))
  }

  // newRotatedSessionTokens
  function RotatedSessionTimes(now: Time, absolute: Time): SessionTimes {
    SessionTimes(Min(now + ACCESS_TTL, absolute), Min(now + IDLE_TTL, absolute), absolute)
  }

  // RegisterAccount, the row it inserts
  function CreateAccount(db: DB, mode: Mode, p: Id, now: Time): (db': DB)
    ensures SameDeviceTables(db, db')
  {
    if p == 0 || p in db.accounts then db
    else db.(accounts := db.accounts[p := Account(if mode.EmailDisabled? then AccountActive else PendingEmail, 1, now)])
  }

  predicate SessionHashFree(db: DB, access: Hash) {
    access != 0 && forall s :: s in db.sessions ==> db.sessions[s].accessHash != access
  }

  // CreateSession, ResetPassword and the other session issuers after their credential checks
  function IssueSession(db: DB, mode: Mode, p: Id, sid: Id, access: Hash, refresh: Hash, now: Time): (db': DB)
    ensures SameDeviceTables(db, db')
  {
    if p !in db.accounts || sid == 0 || sid in db.sessions || refresh == 0 || refresh in db.accountRefresh ||
       !SessionHashFree(db, access)
    then db else
      var deadline := AuthorityDeadline(mode, db.accounts[p], now);
      if deadline.Ineligible? then db else
        var t := NewSessionTimes(now, deadline);
        db.(sessions := db.sessions[sid := Session(p, SessionActive, 1, access, t.access, t.absolute, None)],
            accountRefresh := db.accountRefresh[refresh := AccountRefresh(sid, Active, t.idle, t.absolute)])
  }

  // validRefreshAuthority for an account session
  predicate ValidAccountRefresh(mode: Mode, account: Account, session: Session, token: AccountRefresh, now: Time,
                                allowUsed: bool) {
    var deadline := AuthorityDeadline(mode, account, now);
    && !deadline.Ineligible?
    && (session.state.SessionActive? || (allowUsed && session.state.ReviewRequired?))
    && now < token.absoluteExpires && token.idleExpires <= token.absoluteExpires
    && (deadline.Until? ==> token.absoluteExpires == deadline.at)
    && ((token.state.Active? && now < token.idleExpires) || (token.state.Used? && allowUsed))
  }

  // RotateSession, the final transaction after its challenge and signature
  function RotateAccount(db: DB, mode: Mode, t: Hash, access: Hash, refresh: Hash, now: Time): (db': DB)
    ensures SameDeviceTables(db, db')
  {
    if t !in db.accountRefresh || db.accountRefresh[t].session !in db.sessions then db else
      var token := db.accountRefresh[t];
      var session := db.sessions[token.session];
      if session.principal !in db.accounts ||
         !ValidAccountRefresh(mode, db.accounts[session.principal], session, token, now, true) then db
      else if token.state.Used? then CompromiseSession(db, token.session)
      else if !session.state.SessionActive? || !(now <= session.absoluteExpires) || refresh == 0 ||
              refresh in db.accountRefresh ||
              !SessionHashFree(db, access) then db
      else
        var r := RotatedSessionTimes(now, token.absoluteExpires);
        db.(sessions := db.sessions[token.session := session.(accessHash := access, accessExpires := r.access,
                                                              version := session.version + 1)],
            accountRefresh := db.accountRefresh[t := token.(state := Used)]
                                               [refresh := AccountRefresh(token.session, Active, r.idle, r.absolute)])
  }

  // MarkAccountSessionCompromised with RevokeAccountRefreshTokens
  function CompromiseSession(db: DB, sid: Id): (db': DB)
    requires sid in db.sessions
    ensures SameDeviceTables(db, db')
  {
    db.(sessions := db.sessions[sid := db.sessions[sid].(state := SessionCompromised,
                                                         version := db.sessions[sid].version + 1)],
        accountRefresh := map h | h in db.accountRefresh ::
          if db.accountRefresh[h].session == sid && db.accountRefresh[h].state.Active?
          then db.accountRefresh[h].(state := Revoked) else db.accountRefresh[h])
  }

  // RevokePrincipalAccountSessions and RevokeDeviceBoundAccountSessions on the session table
  function RetireSessions(sessions: map<Id, Session>, which: set<Id>): map<Id, Session> {
    map s | s in sessions ::
      if s in which && (sessions[s].state.SessionActive? || sessions[s].state.ReviewRequired?)
      then sessions[s].(state := SessionRevoked, version := sessions[s].version + 1) else sessions[s]
  }

  // RevokePrincipalAccountSessions
  function RevokeSessions(db: DB, which: set<Id>): (db': DB)
    ensures SameDeviceTables(db, db')
  {
    db.(sessions := RetireSessions(db.sessions, which),
        accountRefresh := map h | h in db.accountRefresh ::
          if db.accountRefresh[h].session in which && db.accountRefresh[h].state.Active?
          then db.accountRefresh[h].(state := Revoked) else db.accountRefresh[h])
  }

  // MarkPrincipalSessionsReviewRequired
  function MarkReview(db: DB, p: Id): (db': DB)
    ensures SameDeviceTables(db, db')
  {
    db.(sessions := map s | s in db.sessions ::
          if db.sessions[s].principal == p && db.sessions[s].state.SessionActive?
          then db.sessions[s].(state := ReviewRequired, version := db.sessions[s].version + 1) else db.sessions[s])
  }

  function BoundSessions(sessions: map<Id, Session>, authorization: Id): set<Id> {
    set s | s in sessions && sessions[s].authorization == Some(authorization)
  }

  // CreateEnrollmentGrant after its password proof
  function CreateGrant(db: DB, mode: Mode, p: Id, sid: Id, hash: Hash, now: Time): (db': DB)
    ensures SameDeviceTables(db, db')
  {
    if p !in db.accounts || sid !in db.sessions || hash == 0 || hash in db.grants || db.sessions[sid].principal != p
    then db else
      var session := db.sessions[sid];
      var deadline := AuthorityDeadline(mode, db.accounts[p], now);
      if !session.state.SessionActive? || session.accessExpires <= now || session.absoluteExpires <= now ||
         deadline.Ineligible? ||
         (deadline.Until? && (session.absoluteExpires != deadline.at || session.accessExpires > deadline.at)) then db
      else
        var grant := if deadline.Until?
          then Grant(p, sid, TrialRestricted, Some(deadline.at), Unused, Min(now + GRANT_TTL, deadline.at), None)
          else Grant(p, sid, Standard, None, Unused, now + GRANT_TTL, None);
        db.(grants := db.grants[hash := grant])
  }

  // VerifyEmail with ActivateProvisionalAuthorization; the token checks are left to the caller
  function VerifyEmail(db: DB, p: Id, now: Time): DB {
    if p !in db.accounts || !db.accounts[p].state.PendingEmail? then db
    else db.(accounts := db.accounts[p := db.accounts[p].(state := AccountActive,
                                                          version := db.accounts[p].version + 1)],
             authorizations := ActivateProvisional(db.authorizations, p, now))
  }

  function ActivateProvisional(authorizations: map<Id, Authorization>, p: Id, now: Time): map<Id, Authorization> {
    map a | a in authorizations ::
      var row := authorizations[a];
      if row.principal == p && row.state.Provisional? && row.provisionalUntil.Some? && now <= row.provisionalUntil.value
      then row.(state := Authorized, version := row.version + 1, provisionalUntil := None) else row
  }

  // Authenticate: an account access token resolves to this session
  predicate Authenticates(db: DB, mode: Mode, sid: Id, now: Time) {
    && sid in db.sessions
    && db.sessions[sid].principal in db.accounts
    && var session := db.sessions[sid];
       var deadline := AuthorityDeadline(mode, db.accounts[session.principal], now);
       && !deadline.Ineligible?
       && (session.state.SessionActive? || session.state.ReviewRequired?)
       && now < session.accessExpires && now < session.absoluteExpires
       && (deadline.Until? ==> session.absoluteExpires == deadline.at && session.accessExpires <= deadline.at)
  }

  // ValidateDeviceAccountAuthority
  predicate AccountAuthority(db: DB, p: Id, now: Time) {
    && p in db.accounts
    && (db.accounts[p].state.AccountActive? || GraceDeadline(db.accounts[p], now).Some?)
  }

  /** What an unused grant entitles its bearer to. */
  datatype Enrollment = Enrollment(principal: Id, session: Id, marker: Marker, provisionalUntil: Option<Time>)

  // ValidateDeviceEnrollment
  function ValidateEnrollment(db: DB, hash: Hash, now: Time): Option<Enrollment> {
    if hash !in db.grants || !db.grants[hash].state.Unused? || db.grants[hash].expiresAt <= now then None else
      var grant := db.grants[hash];
      if grant.session !in db.sessions || grant.principal !in db.accounts then None else
        var session := db.sessions[grant.session];
        var account := db.accounts[grant.principal];
        if session.principal != grant.principal || !session.state.SessionActive? || session.accessExpires <= now ||
           session.absoluteExpires <= now || session.authorization.Some? then None
        else if grant.marker.Standard? then
          if account.state.AccountActive? && grant.provisionalUntil.None?
          then Some(Enrollment(grant.principal, grant.session, Standard, None)) else None
        else
          var deadline := GraceDeadline(account, now);
          if deadline.Some? && grant.provisionalUntil == deadline && grant.expiresAt <= deadline.value &&
             session.absoluteExpires == deadline.value && session.accessExpires <= deadline.value &&
             (forall s :: s in db.sessions && db.sessions[s].principal == grant.principal ==>
                            db.sessions[s].authorization.None?)
          then Some(Enrollment(grant.principal, grant.session, TrialRestricted, deadline)) else None
  }

  // ValidateDeviceRevocation after its password check
  predicate ValidateRevocation(db: DB, p: Id, sid: Id, now: Time) {
    && p in db.accounts && sid in db.sessions
    && db.accounts[p].state.AccountActive? && db.sessions[sid].principal == p && db.sessions[sid].state.SessionActive?
    && now < db.sessions[sid].accessExpires && now < db.sessions[sid].absoluteExpires
  }

  /** A step of the account side: no device table changes, accounts and grants are only added,
      and no session changes its owner or its bound authorization. */
  ghost predicate AccountSideStep(db: DB, db': DB) {
    && SameDeviceTables(db, db')
    && (forall p {:trigger db'.accounts[p]} {:trigger db.accounts[p]} ::
          p in db.accounts ==> p in db'.accounts && db'.accounts[p] == db.accounts[p])
    && (forall g {:trigger db'.grants[g]} {:trigger db.grants[g]} ::
          g in db.grants ==> g in db'.grants && db'.grants[g] == db.grants[g])
    && (forall g {:trigger db'.grants[g]} ::
          g in db'.grants && g !in db.grants ==> db'.grants[g].state.Unused? && db'.grants[g].consumedDevice.None?)
    && SessionLinksKept(db.sessions, db'.sessions)
  }

  ghost predicate SessionLinksKept(x: map<Id, Session>, y: map<Id, Session>) {
    && (forall s {:trigger x[s]} {:trigger y[s]} ::
          s in x ==> s in y && y[s].principal == x[s].principal && y[s].authorization == x[s].authorization)
    && (forall s {:trigger y[s]} :: s in y && s !in x ==> y[s].authorization.None?)
  }

  lemma SignUpIsAccountSide(db: DB, mode: Mode, p: Id, now: Time)
    ensures AccountSideStep(db, CreateAccount(db, mode, p, now))
  {
    var db' := CreateAccount(db, mode, p, now);
    if p == 0 || p in db.accounts {
      assert db' == db;
      } else { assert db'.accounts == db.accounts[p := db'.accounts[p]];
    }
  }

  lemma SignInIsAccountSide(db: DB, mode: Mode, p: Id, sid: Id, access: Hash, refresh: Hash, now: Time)
    ensures AccountSideStep(db, IssueSession(db, mode, p, sid, access, refresh, now))
  {
    var db' := IssueSession(db, mode, p, sid, access, refresh, now);
    if sid in db.sessions || sid !in db'.sessions {
      assert db' == db;
      } else { assert db'.sessions == db.sessions[sid := db'.sessions[sid]];
    }
  }

  lemma CompromiseIsAccountSide(db: DB, sid: Id)
    requires sid in db.sessions
    ensures AccountSideStep(db, CompromiseSession(db, sid))
  {
    var db' := CompromiseSession(db, sid);
    assert db'.sessions == db.sessions[sid := db'.sessions[sid]];
  }

  lemma RefreshIsAccountSide(db: DB, mode: Mode, t: Hash, access: Hash, refresh: Hash, now: Time)
    ensures AccountSideStep(db, RotateAccount(db, mode, t, access, refresh, now))
  {
    var db' := RotateAccount(db, mode, t, access, refresh, now);
    if t in db.accountRefresh && db.accountRefresh[t].session in db.sessions && db' != db {
      var sid := db.accountRefresh[t].session;
      if db.accountRefresh[t].state.Used? {
        CompromiseIsAccountSide(db, sid);
      } else {
        assert db'.sessions == db.sessions[sid := db'.sessions[sid]];
      }
    }
  }

  lemma ReviewIsAccountSide(db: DB, p: Id)
    ensures AccountSideStep(db, MarkReview(db, p))
  {
  }

  lemma RevokeIsAccountSide(db: DB, which: set<Id>)
    ensures AccountSideStep(db, RevokeSessions(db, which))
  {
  }

  lemma GrantIsAccountSide(db: DB, mode: Mode, p: Id, sid: Id, hash: Hash, now: Time)
    ensures AccountSideStep(db, CreateGrant(db, mode, p, sid, hash, now))
  {
    var db' := CreateGrant(db, mode, p, sid, hash, now);
    if hash in db.grants || hash !in db'.grants {
      assert db' == db;
      } else { assert db'.grants == db.grants[hash := db'.grants[hash]];
    }
  }
}
