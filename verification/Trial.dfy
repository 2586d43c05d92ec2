/** The trial deadline: one instant, carried by every credential of an account whose email is not verified. */
module Trial {
  import opened Schema
  import opened Identity
  import opened DeviceTx
  import opened Protocol
  import opened Effects

  function CutOff(account: Account): Time { account.createdAt + GRACE }

  predicate SessionOk(session: Session, accounts: map<Id, Account>) {
    && session.principal in accounts
    && (accounts[session.principal].state.PendingEmail? ==>
          session.absoluteExpires == CutOff(accounts[session.principal]) &&
          session.accessExpires <= session.absoluteExpires)
  }

  predicate TokenOk(token: AccountRefresh, sessions: map<Id, Session>) {
    && token.session in sessions && token.idleExpires <= token.absoluteExpires
    && token.absoluteExpires == sessions[token.session].absoluteExpires
  }

  predicate GrantOk(grant: Grant, accounts: map<Id, Account>, sessions: map<Id, Session>) {
    && grant.principal in accounts && grant.session in sessions && sessions[grant.session].principal == grant.principal
    && match grant.marker
       case Standard => grant.provisionalUntil.None? && !accounts[grant.principal].state.PendingEmail?
       case TrialRestricted =>
         grant.provisionalUntil == Some(CutOff(accounts[grant.principal])) &&
         grant.expiresAt <= CutOff(accounts[grant.principal])
  }

  predicate AuthorizationOk(row: Authorization, accounts: map<Id, Account>) {
    && row.principal in accounts
    && match row.state
       case Provisional => row.provisionalUntil == Some(CutOff(accounts[row.principal])) &&
                           CutOff(accounts[row.principal]) % SECOND == 0
       case Authorized => row.provisionalUntil.None? && !accounts[row.principal].state.PendingEmail?
       case _ => true
  }

  ghost predicate SessionsOk(sessions: map<Id, Session>, accounts: map<Id, Account>) {
    forall s {:trigger sessions[s]} :: s in sessions ==> SessionOk(sessions[s], accounts)
  }

  ghost predicate TokensOk(tokens: map<Hash, AccountRefresh>, sessions: map<Id, Session>) {
    forall h {:trigger tokens[h]} :: h in tokens ==> TokenOk(tokens[h], sessions)
  }

  ghost predicate GrantsOk(grants: map<Hash, Grant>, accounts: map<Id, Account>, sessions: map<Id, Session>) {
    forall g {:trigger grants[g]} :: g in grants ==> GrantOk(grants[g], accounts, sessions)
  }

  ghost predicate AuthorizationsOk(authorizations: map<Id, Authorization>, accounts: map<Id, Account>) {
    forall a {:trigger authorizations[a]} :: a in authorizations ==> AuthorizationOk(authorizations[a], accounts)
  }

  ghost predicate TrialInv(db: DB) {
    && 0 !in db.accounts
    && SessionsOk(db.sessions, db.accounts) && TokensOk(db.accountRefresh, db.sessions)
    && GrantsOk(db.grants, db.accounts, db.sessions) && AuthorizationsOk(db.authorizations, db.accounts)
  }

  /** Sessions keep their owner and their absolute expiry. */
  ghost predicate SessionsKept(x: map<Id, Session>, y: map<Id, Session>) {
    forall s {:trigger x[s]} {:trigger y[s]} ::
      s in x ==> s in y && y[s].principal == x[s].principal && y[s].absoluteExpires == x[s].absoluteExpires
  }

  lemma TokensFrame(tokens: map<Hash, AccountRefresh>, x: map<Id, Session>, y: map<Id, Session>)
    requires TokensOk(tokens, x) && SessionsKept(x, y)
    ensures TokensOk(tokens, y)
  {
  }

  lemma GrantsFrame(grants: map<Hash, Grant>, accounts: map<Id, Account>, x: map<Id, Session>, y: map<Id, Session>)
    requires GrantsOk(grants, accounts, x) && SessionsKept(x, y)
    ensures GrantsOk(grants, accounts, y)
  {
  }

  lemma SignUpKeeps(db: DB, mode: Mode, p: Id, now: Time)
    requires TrialInv(db)
    ensures TrialInv(CreateAccount(db, mode, p, now))
  {
  }

  /** A session issued during a trial ends exactly at the cut-off. */
  lemma IssuedTimes(mode: Mode, account: Account, now: Time)
    requires !AuthorityDeadline(mode, account, now).Ineligible?
    ensures var t := NewSessionTimes(now, AuthorityDeadline(mode, account, now));
            && t.access <= t.idle <= t.absolute
            && (account.state.PendingEmail? ==> t.absolute == CutOff(account))
  {
  }

  lemma SignInKeeps(db: DB, mode: Mode, p: Id, sid: Id, access: Hash, refresh: Hash, now: Time)
    requires TrialInv(db)
    ensures TrialInv(IssueSession(db, mode, p, sid, access, refresh, now))
  {
    var db' := IssueSession(db, mode, p, sid, access, refresh, now);
    if db' != db {
      IssuedTimes(mode, db.accounts[p], now);
      assert sid !in db.sessions;
      GrantsFrame(db.grants, db.accounts, db.sessions, db'.sessions);
      TokensFrame(db.accountRefresh, db.sessions, db'.sessions);
    }
  }

  lemma CompromiseSessionKeeps(db: DB, sid: Id)
    requires TrialInv(db) && sid in db.sessions
    ensures TrialInv(CompromiseSession(db, sid))
  {
    var db' := CompromiseSession(db, sid);
    GrantsFrame(db.grants, db.accounts, db.sessions, db'.sessions);
    TokensFrame(db.accountRefresh, db.sessions, db'.sessions);
  }

  lemma RefreshKeeps(db: DB, mode: Mode, t: Hash, access: Hash, refresh: Hash, now: Time)
    requires TrialInv(db)
    ensures TrialInv(RotateAccount(db, mode, t, access, refresh, now))
  {
    var db' := RotateAccount(db, mode, t, access, refresh, now);
    if db' == db {
    } else if db.accountRefresh[t].state.Used? {
      CompromiseSessionKeeps(db, db.accountRefresh[t].session);
    } else {
      GrantsFrame(db.grants, db.accounts, db.sessions, db'.sessions);
      TokensFrame(db.accountRefresh, db.sessions, db'.sessions);
    }
  }

  lemma ReviewKeeps(db: DB, p: Id)
    requires TrialInv(db)
    ensures TrialInv(MarkReview(db, p))
  {
    GrantsFrame(db.grants, db.accounts, db.sessions, MarkReview(db, p).sessions);
    TokensFrame(db.accountRefresh, db.sessions, MarkReview(db, p).sessions);
  }

  lemma RevokeSessionsKeeps(db: DB, which: set<Id>)
    requires TrialInv(db)
    ensures TrialInv(RevokeSessions(db, which))
  {
    GrantsFrame(db.grants, db.accounts, db.sessions, RevokeSessions(db, which).sessions);
    TokensFrame(db.accountRefresh, db.sessions, RevokeSessions(db, which).sessions);
  }

  lemma GrantKeeps(db: DB, mode: Mode, p: Id, sid: Id, hash: Hash, now: Time)
    requires TrialInv(db)
    ensures TrialInv(CreateGrant(db, mode, p, sid, hash, now))
  {
  }

  lemma VerifyKeeps(db: DB, p: Id, now: Time)
    requires TrialInv(db)
    ensures TrialInv(VerifyEmail(db, p, now))
  {
  }

  lemma RegisterKeeps(db: DB, e: Enrollment, state: AuthState, policy: Policy, c: Enroll, x: Fresh, now: Time)
    requires TrialInv(db) && ValidateEnrollment(db, c.grant, now) == Some(e) &&
             PolicyFor(e, now) == Some((state, policy))
    ensures TrialInv(RegisterGraph(db, e, state, policy, c, x, now))
  {
    var db' := RegisterGraph(db, e, state, policy, c, x, now);
    GrantsFrame(db.grants, db.accounts, db.sessions, db'.sessions);
    TokensFrame(db.accountRefresh, db.sessions, db'.sessions);
  }

  lemma RevokeKeeps(db: DB, r: Revocation, a: Id, key: RecordKey, now: Time)
    requires TrialInv(db) && RevocationValid(db, r, a)
    ensures TrialInv(RevokeGraph(db, r, a, key, now))
  {
    var db' := RevokeGraph(db, r, a, key, now);
    GrantsFrame(db.grants, db.accounts, db.sessions, db'.sessions);
    TokensFrame(db.accountRefresh, db.sessions, db'.sessions);
  }

  // ----- steps -----

  lemma EffectKeeps(db: DB, mode: Mode, effect: Effect, db': DB)
    requires TrialInv(db) && Makes(db, mode, effect, db') && !effect.AccountSide?
    ensures TrialInv(db')
  {
    match effect
    case Revoking(r, a, key, now) => RevokeKeeps(db, r, a, key, now);
    case Registering(c, e, state, policy, x, now) => RegisterKeeps(db, e, state, policy, c, x, now);
    case Activating(p, now) => VerifyKeeps(db, p, now);
    case _ =>
  }

  lemma AccountKeeps(s: State, action: Action)
    requires TrialInv(s.db) && EffectOf(s, action).AccountSide?
    ensures TrialInv(Apply(s, action).db)
  {
    match action
    case SignUp(p, at) => SignUpKeeps(s.db, s.mode, p, at);
    case SignIn(p, sid, access, refresh, at) => SignInKeeps(s.db, s.mode, p, sid, access, refresh, at);
    case RefreshSession(t, access, refresh, at) => RefreshKeeps(s.db, s.mode, t, access, refresh, at);
    case RequireReview(p) => ReviewKeeps(s.db, p);
    case EndSessions(which) => RevokeSessionsKeeps(s.db, which);
    case MakeGrant(p, sid, grant, at) => GrantKeeps(s.db, s.mode, p, sid, grant, at);
  }

  lemma TrialStep(s: State, action: Action)
    requires TrialInv(s.db)
    ensures TrialInv(Apply(s, action).db)
  {
    if EffectOf(s, action).AccountSide? {
      AccountKeeps(s, action);
    } else {
      ApplyMakes(s, action);
      EffectKeeps(s.db, s.mode, EffectOf(s, action), Apply(s, action).db);
    }
  }
}
