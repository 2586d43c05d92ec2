/** The trial cut-off at the doors: what each check admits before it, and that nothing is admitted from it on. */
module Deadlines {
  import opened Schema
  import opened Identity
  import opened DeviceTx
  import opened Protocol
  import opened Trial
  import opened Theorems

  /** The account has never been verified and its trial runs at this instant. */
  predicate OnTrial(account: Account, now: Time) {
    account.state.PendingEmail? && account.createdAt <= now < CutOff(account)
  }

  predicate TokenOwner(db: DB, h: Hash, p: Id) {
    && h in db.accountRefresh && db.accountRefresh[h].session in db.sessions
    && db.sessions[db.accountRefresh[h].session].principal == p
  }

  predicate FamilyOwner(db: DB, f: Id, p: Id) {
    && f in db.families && db.families[f].authorization in db.authorizations
    && db.authorizations[db.families[f].authorization].principal == p
  }

  /** Every session, grant and provisional authorization of an unverified account carries the same instant, creation
      plus a day. */
  lemma OneCutOff(s: State, p: Id)
    requires Reachable(s) && p in s.db.accounts && s.db.accounts[p].state.PendingEmail?
    ensures forall sid :: sid in s.db.sessions && s.db.sessions[sid].principal == p ==>
              s.db.sessions[sid].absoluteExpires == CutOff(s.db.accounts[p]) &&
              s.db.sessions[sid].accessExpires <= CutOff(s.db.accounts[p])
    ensures forall h :: TokenOwner(s.db, h, p) ==> s.db.accountRefresh[h].absoluteExpires == CutOff(s.db.accounts[p])
    ensures forall g :: g in s.db.grants && s.db.grants[g].principal == p ==>
              s.db.grants[g].marker.TrialRestricted? &&
              s.db.grants[g].provisionalUntil == Some(CutOff(s.db.accounts[p])) &&
              s.db.grants[g].expiresAt <= CutOff(s.db.accounts[p])
    ensures forall a :: a in s.db.authorizations && s.db.authorizations[a].principal == p &&
                        s.db.authorizations[a].state.Provisional? ==>
              s.db.authorizations[a].provisionalUntil == Some(CutOff(s.db.accounts[p]))
    ensures forall a :: a in s.db.authorizations && s.db.authorizations[a].principal == p ==>
                          !s.db.authorizations[a].state.Authorized?
  {
    assert TrialInv(s.db) by { ReachableGood(s); }
  }

  // ----- before the cut-off nothing the code issued is refused for its deadline -----

  /** An access token of an unverified account is accepted exactly while the trial runs, the session stands and the
      token is unexpired. */
  lemma AuthenticatesExactly(s: State, sid: Id, now: Time)
    requires Reachable(s) && sid in s.db.sessions && s.db.sessions[sid].principal in s.db.accounts
    requires s.db.accounts[s.db.sessions[sid].principal].state.PendingEmail?
    ensures Authenticates(s.db, s.mode, sid, now) <==>
            && s.mode.EmailGrace? && OnTrial(s.db.accounts[s.db.sessions[sid].principal], now)
            && (s.db.sessions[sid].state.SessionActive? || s.db.sessions[sid].state.ReviewRequired?)
            && now < s.db.sessions[sid].accessExpires
  {
    assert SessionOk(s.db.sessions[sid], s.db.accounts) by { ReachableGood(s); }
  }

  /** A live refresh token of an unverified account is accepted exactly while the trial runs, its session is active
      and it has not idled out. */
  lemma RefreshesExactly(s: State, h: Hash, now: Time)
    requires Reachable(s) && h in s.db.accountRefresh && s.db.accountRefresh[h].session in s.db.sessions
    requires s.db.sessions[s.db.accountRefresh[h].session].principal in s.db.accounts
    requires s.db.accounts[s.db.sessions[s.db.accountRefresh[h].session].principal].state.PendingEmail?
    ensures var token := s.db.accountRefresh[h]; var session := s.db.sessions[token.session];
            var account := s.db.accounts[session.principal];
            ValidAccountRefresh(s.mode, account, session, token, now, false) <==>
            && s.mode.EmailGrace? && OnTrial(account, now) && session.state.SessionActive? && token.state.Active? &&
               now < token.idleExpires
  {
    assert TokenOk(s.db.accountRefresh[h], s.db.sessions) &&
           SessionOk(s.db.sessions[s.db.accountRefresh[h].session], s.db.accounts) by {
      ReachableGood(s);
    }
  }

  /** An unused trial grant is accepted exactly while it and its session's access token are unexpired, the session is
      active and the account has no device yet. */
  lemma EnrollsExactly(s: State, g: Hash, now: Time)
    requires Reachable(s) && g in s.db.grants && s.db.grants[g].principal in s.db.accounts &&
             s.db.grants[g].session in s.db.sessions
    requires s.db.accounts[s.db.grants[g].principal].state.PendingEmail?
    ensures var grant := s.db.grants[g]; var session := s.db.sessions[grant.session];
            var account := s.db.accounts[grant.principal];
            ValidateEnrollment(s.db, g, now).Some? <==>
            && grant.state.Unused? && account.createdAt <= now < grant.expiresAt
            && session.state.SessionActive? && now < session.accessExpires
            && (forall sid :: sid in s.db.sessions && s.db.sessions[sid].principal == grant.principal ==>
                                s.db.sessions[sid].authorization.None?)
    ensures ValidateEnrollment(s.db, g, now).Some? ==>
            ValidateEnrollment(s.db, g, now).value ==
            Enrollment(s.db.grants[g].principal, s.db.grants[g].session, TrialRestricted,
                       Some(CutOff(s.db.accounts[s.db.grants[g].principal])))
  {
    assert GrantOk(s.db.grants[g], s.db.accounts, s.db.sessions) &&
           SessionOk(s.db.sessions[s.db.grants[g].session], s.db.accounts) by {
      ReachableGood(s);
    }
  }

  // ----- from the cut-off on nothing is accepted -----

  /** From the cut-off on, no session, refresh token, grant or device of a never-verified account is accepted
      anywhere. */
  lemma NothingAfterCutOff(s: State, p: Id, now: Time)
    requires Reachable(s) && p in s.db.accounts && s.db.accounts[p].state.PendingEmail? &&
             CutOff(s.db.accounts[p]) <= now
    ensures forall sid :: sid in s.db.sessions && s.db.sessions[sid].principal == p ==>
              !Authenticates(s.db, s.mode, sid, now) && s.db.sessions[sid].absoluteExpires <= now
    ensures forall h :: TokenOwner(s.db, h, p) ==>
              !ValidAccountRefresh(s.mode, s.db.accounts[p], s.db.sessions[s.db.accountRefresh[h].session],
                                   s.db.accountRefresh[h], now, true)
    ensures forall g :: g in s.db.grants && s.db.grants[g].principal == p ==> ValidateEnrollment(s.db, g, now).None?
    ensures forall token :: Discovered(s.db, token) && AuthorityOf(s.db, token).authorization.principal == p ==>
              LockAuthority(s.db, s.mode, token, now).None?
    ensures forall f, access :: FamilyOwner(s.db, f, p) ==> !Authorizes(s.db, s.mode, f, access, now)
  {
    OneCutOff(s, p);
  }

  // ----- whole seconds -----

  /** A trial enrollment that passed every check and meets no unique index succeeds if and only if the account was
      created on a whole second: the policy document keeps whole seconds only, and the service refuses a boundary that
      it would cut. */
  lemma TrialEnrollsExactly(s: State, c: Enroll, x: Fresh, at: Time)
    requires Reachable(s) && s.mode.EmailGrace? && RecordKey(RegisterScope, c.key) !in s.db.records
    requires ValidateEnrollment(s.db, c.grant, at).Some? &&
             ValidateEnrollment(s.db, c.grant, at).value.marker.TrialRestricted?
    requires InsertsAccepted(s.db, ValidateEnrollment(s.db, c.grant, at).value, Provisional, c, x)
    ensures var e := ValidateEnrollment(s.db, c.grant, at).value; var tx := RegisterTx(s.db, s.mode, c, e, x, at);
            && e.principal in s.db.accounts
            && (tx.reply == Tokens(RegisteredTokens(e, x, at)) <==> s.db.accounts[e.principal].createdAt % SECOND == 0)
            && (tx.db != s.db <==> s.db.accounts[e.principal].createdAt % SECOND == 0)
  {
    var e := ValidateEnrollment(s.db, c.grant, at).value;
    var account := s.db.accounts[e.principal];
    WholeSeconds(account.createdAt);
    var tx := RegisterTx(s.db, s.mode, c, e, x, at);
    if account.createdAt % SECOND == 0 { assert x.device in tx.db.devices && x.device !in s.db.devices; }
  }

  lemma WholeSeconds(t: Time)
    ensures (t + GRACE) % SECOND == 0 <==> t % SECOND == 0
  {
    assert GRACE == 86400 * SECOND;
    assert (t + 86400 * SECOND) % SECOND == t % SECOND;
  }

  /** Read over a whole run: a provisional authorization belongs to an account created on a whole second. */
  lemma FractionalNeverEnrolls(s: State, a: Id)
    requires Reachable(s) && a in s.db.authorizations && s.db.authorizations[a].state.Provisional?
    ensures s.db.authorizations[a].principal in s.db.accounts &&
            s.db.accounts[s.db.authorizations[a].principal].createdAt % SECOND == 0
  {
    assert AuthorizationOk(s.db.authorizations[a], s.db.accounts) by { ReachableGood(s); }
    WholeSeconds(s.db.accounts[s.db.authorizations[a].principal].createdAt);
  }

  /** The reachable counterexample: an account created one nanosecond past the second gets a session and a grant, and
      is then refused a device. */
  lemma FractionalAccountIsRefused() returns (s: State, c: Enroll, x: Fresh)
    ensures Reachable(s) && s.mode.EmailGrace? && c.grant in s.db.grants
    ensures ValidateEnrollment(s.db, c.grant, s.clock).Some?
    ensures RegisterTx(s.db, s.mode, c, ValidateEnrollment(s.db, c.grant, s.clock).value, x, s.clock) ==
            Tx(s.db, AuthenticationFailed)
  {
    var s0 := State(EMPTY_DB, EmailGrace, 1, map[], map[], map[], {}, 0);
    var s1 := Apply(s0, SignUp(7, 1));
    var s2 := Apply(s1, SignIn(7, 8, 11, 12, 1));
    s := Apply(s2, MakeGrant(7, 8, 13, 1));
    assert s1.db.accounts == map[7 := Account(PendingEmail, 1, 1)];
    assert s2.db.sessions == map[8 := Session(7, SessionActive, 1, 11, 1 + ACCESS_TTL, 1 + GRACE, None)];
    ThreeSteps(s0, SignUp(7, 1), SignIn(7, 8, 11, 12, 1), MakeGrant(7, 8, 13, 1));
    x := Fresh(1, 2, 3, 4, 5);
    c := Enroll(13, 1, 1, 1, 1, 1, Signature(1, RotationTranscript(1, 1, 1)), 1);
    BoundaryRefused(s.db, c, x);
  }

  lemma BoundaryRefused(db: DB, c: Enroll, x: Fresh)
    requires db.accounts == map[7 := Account(PendingEmail, 1, 1)] && c.grant == 13
    requires db.sessions == map[8 := Session(7, SessionActive, 1, 11, 1 + ACCESS_TTL, 1 + GRACE, None)]
    requires db.grants == map[13 := Grant(7, 8, TrialRestricted, Some(1 + GRACE), Unused, 1 + GRANT_TTL, None)]
    ensures ValidateEnrollment(db, c.grant, 1) == Some(Enrollment(7, 8, TrialRestricted, Some(1 + GRACE)))
    ensures RegisterTx(db, EmailGrace, c, Enrollment(7, 8, TrialRestricted, Some(1 + GRACE)), x, 1) ==
            Tx(db, AuthenticationFailed)
  {
    assert PolicyFor(Enrollment(7, 8, TrialRestricted, Some(1 + GRACE)), 1).None?;
  }

  lemma ThreeSteps(s0: State, a: Action, b: Action, c: Action)
    requires Init(s0)
    ensures Reachable(Apply(Apply(Apply(s0, a), b), c))
  {
    var s3 := Apply(Apply(Apply(s0, a), b), c);
    assert [a, b, c][1..] == [b, c] && [b, c][1..] == [c] && [c][1..] == [];
    assert Run(s3, []) == s3;
    assert Run(Apply(Apply(s0, a), b), [c]) == s3;
    assert Run(Apply(s0, a), [b, c]) == s3;
    assert Run(s0, [a, b, c]) == s3;
  }
}
