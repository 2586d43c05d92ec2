/** Account sessions: what each operation does to the rows, one live refresh token per session, and the end of a
    session. */
module Sessions {
  import opened Schema
  import opened Identity
  import opened DeviceTx
  import opened Protocol
  import opened Effects
  import opened Trial
  import opened Theorems

  // ----- authority of an account -----

  /** The account is verified, or unverified in a deployment that grants a day of trial, within that day. */
  predicate MayHold(mode: Mode, account: Account, now: Time) {
    account.state.AccountActive? ||
    (mode.EmailGrace? && account.state.PendingEmail? && account.createdAt <= now < account.createdAt + DAY)
  }

  /** A trial cuts every deadline at its end. */
  function Cut(t: Time, account: Account): Time {
    if account.state.PendingEmail? && account.createdAt + DAY < t then account.createdAt + DAY else t
  }

  lemma DeadlineExactly(mode: Mode, account: Account, now: Time)
    ensures AuthorityDeadline(mode, account, now) ==
            if !MayHold(mode, account, now) then Ineligible
            else if account.state.AccountActive? then Unlimited else Until(account.createdAt + DAY)
  {
    assert GRACE == DAY;
  }

  // ----- one live token per session -----

  predicate LiveSession(session: Session) { session.state.SessionActive? || session.state.ReviewRequired? }

  predicate LiveToken(tokens: map<Hash, AccountRefresh>, h: Hash, sid: Id) {
    h in tokens && tokens[h].session == sid && tokens[h].state.Active?
  }

  ghost predicate HasLive(tokens: map<Hash, AccountRefresh>, sid: Id) { exists h :: LiveToken(tokens, h, sid) }

  /** A session has at most one live refresh token, and a session that stands has one. */
  ghost predicate OneLive(sessions: map<Id, Session>, tokens: map<Hash, AccountRefresh>) {
    && (forall h, k {:trigger tokens[h], tokens[k]} ::
          && h in tokens && k in tokens && tokens[h].state.Active? && tokens[k].state.Active?
          && tokens[h].session == tokens[k].session
          ==> h == k)
    && (forall sid {:trigger HasLive(tokens, sid)} ::
          sid in sessions && LiveSession(sessions[sid]) ==> HasLive(tokens, sid))
  }

  lemma TokenAdded(sessions: map<Id, Session>, tokens: map<Hash, AccountRefresh>, sid: Id, row: Session, h: Hash,
                   token: AccountRefresh)
    requires OneLive(sessions, tokens) && TokensOk(tokens, sessions) && sid !in sessions && h !in tokens
    requires token.session == sid && token.state.Active?
    ensures OneLive(sessions[sid := row], tokens[h := token])
  {
    var after := tokens[h := token];
    forall x | x in sessions[sid := row] && LiveSession(sessions[sid := row][x]) ensures HasLive(after, x) {
      if x == sid {
        assert LiveToken(after, h, sid);
      } else {
        assert HasLive(tokens, x);
        var k :| LiveToken(tokens, k, x);
        assert LiveToken(after, k, x);
      }
    }
  }

  lemma TokenSpent(sessions: map<Id, Session>, tokens: map<Hash, AccountRefresh>, sid: Id, row: Session, t: Hash,
                   h: Hash,
                   token: AccountRefresh)
    requires OneLive(sessions, tokens) && LiveToken(tokens, t, sid) && h !in tokens
    requires token.session == sid && token.state.Active?
    ensures OneLive(sessions[sid := row], tokens[t := tokens[t].(state := Used)][h := token])
  {
    var after := tokens[t := tokens[t].(state := Used)][h := token];
    forall x | x in sessions[sid := row] && LiveSession(sessions[sid := row][x]) ensures HasLive(after, x) {
      if x == sid {
        assert LiveToken(after, h, sid);
      } else {
        assert HasLive(tokens, x);
        var k :| LiveToken(tokens, k, x);
        assert LiveToken(after, k, x);
      }
    }
  }

  /** Ending some sessions and revoking at most their tokens. */
  lemma SessionsEnded(x: map<Id, Session>, y: map<Id, Session>, tokens: map<Hash, AccountRefresh>,
                      after: map<Hash, AccountRefresh>)
    requires OneLive(x, tokens) && x.Keys == y.Keys && tokens.Keys == after.Keys
    requires forall s {:trigger y[s]} :: s in y && LiveSession(y[s]) ==> LiveSession(x[s])
    requires forall h {:trigger after[h]} {:trigger tokens[h]} :: h in tokens ==>
               && after[h].session == tokens[h].session
               && (after[h].state.Active? ==> tokens[h].state.Active?)
               && (tokens[h].state.Active? && tokens[h].session in y && LiveSession(y[tokens[h].session]) ==>
                     after[h].state.Active?)
    ensures OneLive(y, after)
  {
    forall s | s in y && LiveSession(y[s]) ensures HasLive(after, s) {
      assert HasLive(tokens, s);
      var h :| LiveToken(tokens, h, s);
      assert LiveToken(after, h, s);
    }
  }

  lemma SignInKeeps(db: DB, mode: Mode, p: Id, sid: Id, access: Hash, refresh: Hash, now: Time, db': DB)
    requires OneLive(db.sessions, db.accountRefresh) && TrialInv(db)
    requires db' == IssueSession(db, mode, p, sid, access, refresh, now)
    ensures OneLive(db'.sessions, db'.accountRefresh)
  {
    if db' != db {
      TokenAdded(db.sessions, db.accountRefresh, sid, db'.sessions[sid], refresh, db'.accountRefresh[refresh]);
    }
  }

  lemma CompromiseKeeps(db: DB, sid: Id, db': DB)
    requires OneLive(db.sessions, db.accountRefresh) && sid in db.sessions && db' == CompromiseSession(db, sid)
    ensures OneLive(db'.sessions, db'.accountRefresh)
  {
    SessionsEnded(db.sessions, db'.sessions, db.accountRefresh, db'.accountRefresh);
  }

  lemma RotationKeeps(db: DB, t: Hash, access: Hash, refresh: Hash, now: Time, db': DB)
    requires OneLive(db.sessions, db.accountRefresh) && t in db.accountRefresh && db.accountRefresh[t].state.Active?
    requires db.accountRefresh[t].session in db.sessions && refresh !in db.accountRefresh
    requires var sid := db.accountRefresh[t].session;
             && sid in db'.sessions && db'.sessions == db.sessions[sid := db'.sessions[sid]]
             && refresh in db'.accountRefresh && db'.accountRefresh[refresh].session == sid
             && db'.accountRefresh[refresh].state.Active?
             && db'.accountRefresh == db.accountRefresh[t := db.accountRefresh[t].(state := Used)]
                                                       [refresh := db'.accountRefresh[refresh]]
    ensures OneLive(db'.sessions, db'.accountRefresh)
  {
    var sid := db.accountRefresh[t].session;
    TokenSpent(db.sessions, db.accountRefresh, sid, db'.sessions[sid], t, refresh, db'.accountRefresh[refresh]);
  }

  lemma RefreshKeeps(db: DB, mode: Mode, t: Hash, access: Hash, refresh: Hash, now: Time, db': DB)
    requires OneLive(db.sessions, db.accountRefresh) && db' == RotateAccount(db, mode, t, access, refresh, now)
    ensures OneLive(db'.sessions, db'.accountRefresh)
  {
    if db' != db {
      if db.accountRefresh[t].state.Used? {
        CompromiseKeeps(db, db.accountRefresh[t].session, db');
      } else {
        RotationKeeps(db, t, access, refresh, now, db');
      }
    }
  }

  lemma ReviewKeeps(db: DB, p: Id, db': DB)
    requires OneLive(db.sessions, db.accountRefresh) && db' == MarkReview(db, p)
    ensures OneLive(db'.sessions, db'.accountRefresh)
  {
    SessionsEnded(db.sessions, db'.sessions, db.accountRefresh, db'.accountRefresh);
  }

  lemma EndKeeps(db: DB, which: set<Id>, db': DB)
    requires OneLive(db.sessions, db.accountRefresh) && db' == RevokeSessions(db, which)
    ensures OneLive(db'.sessions, db'.accountRefresh)
  {
    SessionsEnded(db.sessions, db'.sessions, db.accountRefresh, db'.accountRefresh);
  }

  lemma AccountKeepsLive(s: State, action: Action, s': State)
    requires OneLive(s.db.sessions, s.db.accountRefresh) && TrialInv(s.db) && EffectOf(s, action).AccountSide?
    requires s' == Apply(s, action)
    ensures OneLive(s'.db.sessions, s'.db.accountRefresh)
  {
    match action
    case SignIn(p, sid, access, refresh, at) =>
      if at <= s.clock { SignInKeeps(s.db, s.mode, p, sid, access, refresh, at, s'.db); }
    case RefreshSession(t, access, refresh, at) =>
      if at <= s.clock { RefreshKeeps(s.db, s.mode, t, access, refresh, at, s'.db); }
    case RequireReview(p) => ReviewKeeps(s.db, p, s'.db);
    case EndSessions(which) => EndKeeps(s.db, which, s'.db);
    case _ => SameSessions(s, action, s');
  }

  lemma SameSessions(s: State, action: Action, s': State)
    requires s' == Apply(s, action) && (action.SignUp? || action.MakeGrant?)
    ensures s'.db.sessions == s.db.sessions && s'.db.accountRefresh == s.db.accountRefresh
  {
  }

  /** Besides the account side, only registration and revocation write sessions: one binds a session, the other ends
      some. */
  lemma EffectKeepsSessions(db: DB, mode: Mode, effect: Effect, db': DB)
    requires Makes(db, mode, effect, db') && !effect.AccountSide?
    ensures db'.accountRefresh == db.accountRefresh && db.sessions.Keys == db'.sessions.Keys
    ensures forall s {:trigger db'.sessions[s]} :: s in db'.sessions && LiveSession(db'.sessions[s]) ==>
              LiveSession(db.sessions[s])
  {
  }

  lemma EffectKeepsLive(db: DB, mode: Mode, effect: Effect, db': DB)
    requires OneLive(db.sessions, db.accountRefresh) && Makes(db, mode, effect, db') && !effect.AccountSide?
    ensures OneLive(db'.sessions, db'.accountRefresh)
  {
    EffectKeepsSessions(db, mode, effect, db');
    SessionsEnded(db.sessions, db'.sessions, db.accountRefresh, db'.accountRefresh);
  }

  lemma {:induction false} LiveRun(s: State, actions: seq<Action>)
    requires Good(s) && OneLive(s.db.sessions, s.db.accountRefresh)
    ensures OneLive(Run(s, actions).db.sessions, Run(s, actions).db.accountRefresh)
    decreases |actions|
  {
    if actions != [] {
      var s' := Apply(s, actions[0]);
      LiveStep(s, actions[0], s');
      GoodStep(s, actions[0]);
      LiveRun(s', actions[1..]);
    }
  }

  lemma LiveStep(s: State, action: Action, s': State)
    requires TrialInv(s.db) && OneLive(s.db.sessions, s.db.accountRefresh) && s' == Apply(s, action)
    ensures OneLive(s'.db.sessions, s'.db.accountRefresh)
  {
    if EffectOf(s, action).AccountSide? {
      AccountKeepsLive(s, action, s');
    } else {
      ApplyMakes(s, action);
      EffectKeepsLive(s.db, s.mode, EffectOf(s, action), s'.db);
    }
  }

  /** In every reachable state a session has at most one live refresh token, and one that stands has exactly one. */
  lemma SessionsHaveOneLiveToken(s: State)
    requires Reachable(s)
    ensures OneLive(s.db.sessions, s.db.accountRefresh)
  {
    var s0, actions :| Init(s0) && s == Run(s0, actions);
    InitGood(s0);
    LiveRun(s0, actions);
  }

  // ----- what each operation does -----

  predicate DigestFree(sessions: map<Id, Session>, access: Hash) {
    access != 0 && forall s :: s in sessions ==> sessions[s].accessHash != access
  }

  predicate SignsIn(db: DB, mode: Mode, p: Id, sid: Id, access: Hash, refresh: Hash, at: Time) {
    && p in db.accounts && MayHold(mode, db.accounts[p], at) && sid != 0 && sid !in db.sessions
    && refresh != 0 && refresh !in db.accountRefresh && DigestFree(db.sessions, access)
  }

  function SignedInRows(db: DB, p: Id, sid: Id, access: Hash, refresh: Hash, at: Time): DB
    requires p in db.accounts
  {
    var account := db.accounts[p];
    db.(sessions := db.sessions[sid := Session(p, SessionActive, 1, access, Cut(at + 10 * MINUTE, account),
                                               Cut(at + 90 * DAY, account), None)],
        accountRefresh := db.accountRefresh[refresh := AccountRefresh(sid, Active, Cut(at + 30 * DAY, account),
                                                                      Cut(at + 90 * DAY, account))])
  }

  lemma IssuesExactly(db: DB, mode: Mode, p: Id, sid: Id, access: Hash, refresh: Hash, at: Time, db': DB)
    requires db' == IssueSession(db, mode, p, sid, access, refresh, at)
    ensures SignsIn(db, mode, p, sid, access, refresh, at) ==> db' == SignedInRows(db, p, sid, access, refresh, at)
    ensures !SignsIn(db, mode, p, sid, access, refresh, at) ==> db' == db
  {
    if p in db.accounts { DeadlineExactly(mode, db.accounts[p], at); }
  }

  /** Signing in issues one session with ten minutes of access, thirty days of idleness and ninety days in all, each
      cut at the end of a trial, exactly for an account that may hold authority and new identifiers and digests. */
  lemma SignsInExactly(s: State, p: Id, sid: Id, access: Hash, refresh: Hash, at: Time, s': State)
    requires at <= s.clock && s' == Apply(s, SignIn(p, sid, access, refresh, at))
    ensures SignsIn(s.db, s.mode, p, sid, access, refresh, at) ==>
              s'.db == SignedInRows(s.db, p, sid, access, refresh, at)
    ensures !SignsIn(s.db, s.mode, p, sid, access, refresh, at) ==> s'.db == s.db
  {
    IssuesExactly(s.db, s.mode, p, sid, access, refresh, at, s'.db);
  }

  /** The rows behind an account refresh token. */
  predicate Owned(db: DB, t: Hash) {
    t in db.accountRefresh && db.accountRefresh[t].session in db.sessions &&
    db.sessions[db.accountRefresh[t].session].principal in db.accounts
  }

  function OwnerOf(db: DB, t: Hash): Account
    requires Owned(db, t)
  {
    db.accounts[db.sessions[db.accountRefresh[t].session].principal]
  }

  lemma TokensAreOwned(s: State, t: Hash)
    requires Reachable(s) && t in s.db.accountRefresh
    ensures Owned(s.db, t) && TokenOk(s.db.accountRefresh[t], s.db.sessions)
    ensures SessionOk(s.db.sessions[s.db.accountRefresh[t].session], s.db.accounts)
  {
    ReachableGood(s);
  }

  /** A live token of an active session is rotated: it becomes used, and exactly one successor and one access token
      replace it, within the absolute expiry of the session. */
  predicate RotatesNow(db: DB, mode: Mode, t: Hash, access: Hash, refresh: Hash, at: Time)
    requires Owned(db, t)
  {
    && MayHold(mode, OwnerOf(db, t), at) && db.sessions[db.accountRefresh[t].session].state.SessionActive?
    && db.accountRefresh[t].state.Active? && at < db.accountRefresh[t].idleExpires
    && refresh != 0 && refresh !in db.accountRefresh && DigestFree(db.sessions, access)
  }

  /** A used token of a session that stands is a reuse, also past its idle deadline. */
  predicate ReusedNow(db: DB, mode: Mode, t: Hash, at: Time)
    requires Owned(db, t)
  {
    && MayHold(mode, OwnerOf(db, t), at) && LiveSession(db.sessions[db.accountRefresh[t].session])
    && db.accountRefresh[t].state.Used? && at < db.accountRefresh[t].absoluteExpires
  }

  function Sooner(a: Time, b: Time): Time { if b < a then b else a }

  function RotatedRows(db: DB, t: Hash, access: Hash, refresh: Hash, at: Time): DB
    requires Owned(db, t)
  {
    var token := db.accountRefresh[t];
    var session := db.sessions[token.session];
    db.(sessions := db.sessions[token.session :=
          session.(accessHash := access, accessExpires := Sooner(at + 10 * MINUTE, token.absoluteExpires),
                   version := session.version + 1)],
        accountRefresh := db.accountRefresh[t := token.(state := Used)]
          [refresh := AccountRefresh(token.session, Active, Sooner(at + 30 * DAY, token.absoluteExpires),
                                     token.absoluteExpires)])
  }

  function CompromisedRows(db: DB, t: Hash, live: Hash): DB
    requires Owned(db, t) && live in db.accountRefresh
  {
    var sid := db.accountRefresh[t].session;
    db.(sessions := db.sessions[sid := db.sessions[sid].(state := SessionCompromised,
                                                         version := db.sessions[sid].version + 1)],
        accountRefresh := db.accountRefresh[live := db.accountRefresh[live].(state := Revoked)])
  }

  lemma RotatesAsSaid(s: State, t: Hash, access: Hash, refresh: Hash, at: Time, db': DB)
    requires Reachable(s) && Owned(s.db, t) && RotatesNow(s.db, s.mode, t, access, refresh, at)
    requires db' == RotateAccount(s.db, s.mode, t, access, refresh, at)
    ensures db' == RotatedRows(s.db, t, access, refresh, at)
  {
    TokensAreOwned(s, t);
    DeadlineExactly(s.mode, OwnerOf(s.db, t), at);
    assert GRACE == DAY;
  }

  lemma CompromisesAsSaid(s: State, t: Hash, access: Hash, refresh: Hash, at: Time, db': DB) returns (live: Hash)
    requires Reachable(s) && Owned(s.db, t) && ReusedNow(s.db, s.mode, t, at)
    requires db' == RotateAccount(s.db, s.mode, t, access, refresh, at)
    ensures LiveToken(s.db.accountRefresh, live, s.db.accountRefresh[t].session)
    ensures db' == CompromisedRows(s.db, t, live)
  {
    var sid := s.db.accountRefresh[t].session;
    SessionsHaveOneLiveToken(s);
    assert HasLive(s.db.accountRefresh, sid);
    live :| LiveToken(s.db.accountRefresh, live, sid);
    OnlyLiveRevoked(s.db.sessions, s.db.accountRefresh, sid, live);
    TokensAreOwned(s, t);
    DeadlineExactly(s.mode, OwnerOf(s.db, t), at);
    assert GRACE == DAY;
  }

  lemma OnlyLiveRevoked(sessions: map<Id, Session>, tokens: map<Hash, AccountRefresh>, sid: Id, live: Hash)
    requires OneLive(sessions, tokens) && LiveToken(tokens, live, sid)
    ensures (map h | h in tokens :: if tokens[h].session == sid && tokens[h].state.Active?
                                    then tokens[h].(state := Revoked) else tokens[h]) ==
            tokens[live := tokens[live].(state := Revoked)]
  {
  }

  lemma OtherwiseRefused(s: State, t: Hash, access: Hash, refresh: Hash, at: Time)
    requires Reachable(s) && Owned(s.db, t)
    requires !RotatesNow(s.db, s.mode, t, access, refresh, at) && !ReusedNow(s.db, s.mode, t, at)
    ensures RotateAccount(s.db, s.mode, t, access, refresh, at) == s.db
  {
    TokensAreOwned(s, t);
    DeadlineExactly(s.mode, OwnerOf(s.db, t), at);
    assert GRACE == DAY;
  }

  /** Presenting an account refresh token: a live one is rotated, a used one compromises its session and revokes exactly
      the session's live token, and anything else changes nothing. */
  lemma RefreshesExactly(s: State, t: Hash, access: Hash, refresh: Hash, at: Time, s': State) returns (live: Hash)
    requires Reachable(s) && at <= s.clock && t in s.db.accountRefresh
    requires s' == Apply(s, RefreshSession(t, access, refresh, at))
    ensures Owned(s.db, t)
    ensures RotatesNow(s.db, s.mode, t, access, refresh, at) ==> s'.db == RotatedRows(s.db, t, access, refresh, at)
    ensures ReusedNow(s.db, s.mode, t, at) ==>
              LiveToken(s.db.accountRefresh, live, s.db.accountRefresh[t].session) &&
              s'.db == CompromisedRows(s.db, t, live)
    ensures !RotatesNow(s.db, s.mode, t, access, refresh, at) && !ReusedNow(s.db, s.mode, t, at) ==> s'.db == s.db
  {
    TokensAreOwned(s, t);
    live := 0;
    if RotatesNow(s.db, s.mode, t, access, refresh, at) {
      RotatesAsSaid(s, t, access, refresh, at, s'.db);
    } else if ReusedNow(s.db, s.mode, t, at) {
      live := CompromisesAsSaid(s, t, access, refresh, at, s'.db);
    } else {
      OtherwiseRefused(s, t, access, refresh, at);
    }
  }

  /** Signing up adds one account, unverified where the deployment asks for verification. */
  lemma SignsUpExactly(s: State, p: Id, at: Time, s': State)
    requires at <= s.clock && s' == Apply(s, SignUp(p, at))
    ensures s'.db == if p == 0 || p in s.db.accounts then s.db
                     else s.db.(accounts := s.db.accounts[p :=
                                  Account(if s.mode.EmailDisabled? then AccountActive else PendingEmail, 1, at)])
  {
  }

  predicate Grantable(db: DB, mode: Mode, p: Id, sid: Id, hash: Hash, at: Time) {
    && p in db.accounts && MayHold(mode, db.accounts[p], at) && hash != 0 && hash !in db.grants
    && sid in db.sessions && db.sessions[sid].principal == p && db.sessions[sid].state.SessionActive?
    && at < db.sessions[sid].accessExpires && at < db.sessions[sid].absoluteExpires
  }

  function GrantFor(account: Account, p: Id, sid: Id, at: Time): Grant {
    if account.state.PendingEmail?
    then Grant(p, sid, TrialRestricted, Some(account.createdAt + DAY), Unused, Cut(at + 10 * MINUTE, account), None)
    else Grant(p, sid, Standard, None, Unused, at + 10 * MINUTE, None)
  }

  /** A grant is made exactly for the owner of a live session that may hold authority, for ten minutes; during a trial
      it is a trial grant and ends with the trial at the latest. */
  lemma GrantsExactly(s: State, p: Id, sid: Id, hash: Hash, at: Time, s': State)
    requires Reachable(s) && at <= s.clock && s' == Apply(s, MakeGrant(p, sid, hash, at))
    ensures Grantable(s.db, s.mode, p, sid, hash, at) ==>
              s'.db == s.db.(grants := s.db.grants[hash := GrantFor(s.db.accounts[p], p, sid, at)])
    ensures !Grantable(s.db, s.mode, p, sid, hash, at) ==> s'.db == s.db
  {
    if p in s.db.accounts && sid in s.db.sessions {
      assert SessionOk(s.db.sessions[sid], s.db.accounts) by { ReachableGood(s); }
      MakesGrant(s.db, s.mode, p, sid, hash, at);
    }
  }

  lemma MakesGrant(db: DB, mode: Mode, p: Id, sid: Id, hash: Hash, at: Time)
    requires p in db.accounts && sid in db.sessions && SessionOk(db.sessions[sid], db.accounts)
    ensures CreateGrant(db, mode, p, sid, hash, at) ==
            if Grantable(db, mode, p, sid, hash, at)
            then db.(grants := db.grants[hash := GrantFor(db.accounts[p], p, sid, at)]) else db
  {
    DeadlineExactly(mode, db.accounts[p], at);
  }

  /** After a committed verification the account is active, exactly the trial authorizations that the clock reading
      finds unexpired are activated, and every session that stands is accepted until its own deadlines. */
  lemma VerifiesExactly(s: State, p: Id, at: Time, s': State, sid: Id, a: Id, now: Time)
    requires Reachable(s) && at <= s.clock && s' == Apply(s, Verify(p, at))
    requires p in s.db.accounts && s.db.accounts[p].state.PendingEmail?
    ensures s'.db.accounts == s.db.accounts[p := Account(AccountActive, s.db.accounts[p].version + 1,
                                                         s.db.accounts[p].createdAt)]
    ensures s'.db == s.db.(accounts := s'.db.accounts, authorizations := s'.db.authorizations)
    ensures s'.db.authorizations.Keys == s.db.authorizations.Keys
    ensures a in s.db.authorizations ==>
              var row := s.db.authorizations[a];
              s'.db.authorizations[a] ==
              if row.principal == p && row.state.Provisional? && at <= s.db.accounts[p].createdAt + DAY
              then Authorization(p, row.device, Authorized, row.version + 1, None) else row
    ensures sid in s.db.sessions && s.db.sessions[sid].principal == p ==>
              (Authenticates(s'.db, s'.mode, sid, now) <==>
                 LiveSession(s.db.sessions[sid]) && now < s.db.sessions[sid].accessExpires &&
                 now < s.db.sessions[sid].absoluteExpires)
  {
    VerifiedRows(s, p, at, s', a);
    ReachableStep(s, Verify(p, at));
    if sid in s.db.sessions { AuthenticatesExactly(s', sid, now); }
  }

  lemma VerifiedRows(s: State, p: Id, at: Time, s': State, a: Id)
    requires Reachable(s) && at <= s.clock && s' == Apply(s, Verify(p, at))
    requires p in s.db.accounts && s.db.accounts[p].state.PendingEmail?
    ensures s'.mode == s.mode && s'.db == s.db.(accounts := s'.db.accounts, authorizations := s'.db.authorizations)
    ensures s'.db.accounts == s.db.accounts[p := Account(AccountActive, s.db.accounts[p].version + 1,
                                                         s.db.accounts[p].createdAt)]
    ensures s'.db.authorizations.Keys == s.db.authorizations.Keys
    ensures a in s.db.authorizations ==>
              var row := s.db.authorizations[a];
              s'.db.authorizations[a] ==
              if row.principal == p && row.state.Provisional? && at <= s.db.accounts[p].createdAt + DAY
              then Authorization(p, row.device, Authorized, row.version + 1, None) else row
  {
    if a in s.db.authorizations {
      assert AuthorizationOk(s.db.authorizations[a], s.db.accounts) by { ReachableGood(s); }
      assert GRACE == DAY;
    }
  }

  /** Requiring review marks exactly the active sessions of the principal. */
  lemma ReviewsExactly(s: State, p: Id, s': State, sid: Id)
    requires s' == Apply(s, RequireReview(p)) && sid in s.db.sessions
    ensures s'.db == s.db.(sessions := s'.db.sessions) && s'.db.sessions.Keys == s.db.sessions.Keys
    ensures s'.db.sessions[sid] ==
            var row := s.db.sessions[sid];
            if row.principal == p && row.state.SessionActive?
            then row.(state := ReviewRequired, version := row.version + 1) else row
  {
  }

  /** Ending sessions revokes exactly those of them that stand, and the live token of each. */
  lemma EndsExactly(s: State, which: set<Id>, s': State, sid: Id, h: Hash)
    requires s' == Apply(s, EndSessions(which)) && sid in s.db.sessions && h in s.db.accountRefresh
    ensures s'.db == s.db.(sessions := s'.db.sessions, accountRefresh := s'.db.accountRefresh)
    ensures s'.db.sessions.Keys == s.db.sessions.Keys && s'.db.accountRefresh.Keys == s.db.accountRefresh.Keys
    ensures s'.db.sessions[sid] ==
            var row := s.db.sessions[sid];
            if sid in which && LiveSession(row) then row.(state := SessionRevoked, version := row.version + 1) else row
    ensures s'.db.accountRefresh[h] ==
            var token := s.db.accountRefresh[h];
            if token.session in which && token.state.Active? then token.(state := Revoked) else token
  {
  }

  /** An access token is accepted exactly while its account may hold authority, its session stands and neither of its
      two deadlines has passed. */
  lemma AuthenticatesExactly(s: State, sid: Id, now: Time)
    requires Reachable(s) && sid in s.db.sessions
    ensures s.db.sessions[sid].principal in s.db.accounts
    ensures Authenticates(s.db, s.mode, sid, now) <==>
            && MayHold(s.mode, s.db.accounts[s.db.sessions[sid].principal], now) && LiveSession(s.db.sessions[sid])
            && now < s.db.sessions[sid].accessExpires && now < s.db.sessions[sid].absoluteExpires
  {
    assert SessionOk(s.db.sessions[sid], s.db.accounts) by { ReachableGood(s); }
    DeadlineExactly(s.mode, s.db.accounts[s.db.sessions[sid].principal], now);
  }

  // ----- sessions that ended -----

  predicate Ended(sessions: map<Id, Session>, sid: Id) { sid in sessions && !LiveSession(sessions[sid]) }

  lemma EndedStep(s: State, action: Action, sid: Id, s': State)
    requires Ended(s.db.sessions, sid) && s' == Apply(s, action)
    ensures sid in s'.db.sessions && s'.db.sessions[sid].state == s.db.sessions[sid].state
  {
    if EffectOf(s, action).AccountSide? {
      EndedAccount(s, action, sid, s');
    } else {
      ApplyMakes(s, action);
      EndedEffect(s.db, s.mode, EffectOf(s, action), s'.db, sid);
    }
  }

  lemma EndedRefresh(db: DB, mode: Mode, t: Hash, access: Hash, refresh: Hash, now: Time, sid: Id)
    requires Ended(db.sessions, sid)
    ensures var db' := RotateAccount(db, mode, t, access, refresh, now);
            sid in db'.sessions && db'.sessions[sid].state == db.sessions[sid].state
  {
  }

  lemma EndedSignIn(db: DB, mode: Mode, p: Id, x: Id, access: Hash, refresh: Hash, now: Time, sid: Id)
    requires Ended(db.sessions, sid)
    ensures var db' := IssueSession(db, mode, p, x, access, refresh, now);
            sid in db'.sessions && db'.sessions[sid].state == db.sessions[sid].state
  {
  }

  lemma EndedAccount(s: State, action: Action, sid: Id, s': State)
    requires Ended(s.db.sessions, sid) && s' == Apply(s, action) && EffectOf(s, action).AccountSide?
    ensures sid in s'.db.sessions && s'.db.sessions[sid].state == s.db.sessions[sid].state
  {
    match action
    case SignIn(p, x, access, refresh, at) => EndedSignIn(s.db, s.mode, p, x, access, refresh, at, sid);
    case RefreshSession(t, access, refresh, at) => EndedRefresh(s.db, s.mode, t, access, refresh, at, sid);
    case _ => EndedElsewhere(s, action, sid, s');
  }

  lemma EndedElsewhere(s: State, action: Action, sid: Id, s': State)
    requires Ended(s.db.sessions, sid) && s' == Apply(s, action)
    requires action.SignUp? || action.MakeGrant? || action.RequireReview? || action.EndSessions?
    ensures sid in s'.db.sessions && s'.db.sessions[sid].state == s.db.sessions[sid].state
  {
  }

  lemma EndedEffect(db: DB, mode: Mode, effect: Effect, db': DB, sid: Id)
    requires Ended(db.sessions, sid) && Makes(db, mode, effect, db') && !effect.AccountSide?
    ensures sid in db'.sessions && db'.sessions[sid].state == db.sessions[sid].state
  {
  }

  lemma {:induction false} EndedRun(s: State, actions: seq<Action>, sid: Id)
    requires Ended(s.db.sessions, sid)
    ensures sid in Run(s, actions).db.sessions
    ensures Run(s, actions).db.sessions[sid].state == s.db.sessions[sid].state
    decreases |actions|
  {
    if actions != [] {
      EndedStep(s, actions[0], sid, Apply(s, actions[0]));
      EndedRun(Apply(s, actions[0]), actions[1..], sid);
    }
  }

  /** A compromised or revoked session never authenticates again and none of its tokens does anything, in any
      continuation. */
  lemma EndedForever(s: State, actions: seq<Action>, sid: Id, last: State, now: Time, t: Hash, access: Hash,
                     refresh: Hash)
    requires Reachable(s) && Ended(s.db.sessions, sid) && last == Run(s, actions) && now <= last.clock
    ensures Ended(last.db.sessions, sid) && !Authenticates(last.db, last.mode, sid, now)
    ensures t in last.db.accountRefresh && last.db.accountRefresh[t].session == sid ==>
              Apply(last, RefreshSession(t, access, refresh, now)).db == last.db
  {
    EndedRun(s, actions, sid);
    ReachableRun(s, actions);
    AuthenticatesExactly(last, sid, now);
    if t in last.db.accountRefresh && last.db.accountRefresh[t].session == sid {
      var live := RefreshesExactly(last, t, access, refresh, now, Apply(last, RefreshSession(t, access, refresh, now)));
    }
  }
}
