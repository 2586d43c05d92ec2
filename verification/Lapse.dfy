/** The end of a trial over whole runs.  A verification reads the clock when its transaction starts and compares that
    reading with the end of the trial after waiting for its locks, so one that is in flight at the end may still
    commit afterwards. */
module Lapse {
  import opened Schema
  import opened Identity
  import opened DeviceTx
  import opened Protocol
  import opened Effects
  import opened Theorems

  predicate OnTrial(authorizations: map<Id, Authorization>, a: Id, until: Time) {
    a in authorizations && authorizations[a].state.Provisional? && authorizations[a].provisionalUntil == Some(until)
  }

  predicate Pending(accounts: map<Id, Account>, p: Id) { p in accounts && accounts[p].state.PendingEmail? }

  /** This step commits a verification of principal p whose clock reading is not past the end of the trial. */
  predicate InTime(s: State, action: Action, p: Id, until: Time) {
    action.Verify? && action.principal == p && action.at <= s.clock && Pending(s.db.accounts, p) && action.at <= until
  }

  /** Some step of the run does. */
  predicate VerifiedInTime(s: State, actions: seq<Action>, p: Id, until: Time)
    decreases |actions|
  {
    actions != [] && (InTime(s, actions[0], p, until) || VerifiedInTime(Apply(s, actions[0]), actions[1..], p, until))
  }

  /** The authorization is active at some point of the run. */
  predicate EverActive(s: State, actions: seq<Action>, a: Id)
    decreases |actions|
  {
    || (a in s.db.authorizations && s.db.authorizations[a].state.Authorized?)
    || (actions != [] && EverActive(Apply(s, actions[0]), actions[1..], a))
  }

  // ----- one step -----

  /** Revoked, by an owner whose account is verified: the one way out of a trial besides activation. */
  predicate Retired(db: DB, a: Id, p: Id) {
    a in db.authorizations && db.authorizations[a].state.AuthRevoked? && p in db.accounts && !Pending(db.accounts, p)
  }

  predicate Activation(db: DB, effect: Effect, p: Id, until: Time) {
    effect.Activating? && effect.principal == p && Pending(db.accounts, p) && effect.now <= until
  }

  lemma TrialEffect(db: DB, mode: Mode, effect: Effect, db': DB, a: Id, until: Time)
    requires Makes(db, mode, effect, db') && OnTrial(db.authorizations, a, until)
    ensures var p := db.authorizations[a].principal;
            && a in db'.authorizations && db'.authorizations[a].principal == p
            && (Activation(db, effect, p, until) ==> db'.authorizations[a].state.Authorized?)
            && (!Activation(db, effect, p, until) ==> OnTrial(db'.authorizations, a, until) || Retired(db', a, p))
  {
  }

  lemma RetiredEffect(db: DB, mode: Mode, effect: Effect, db': DB, a: Id, p: Id)
    requires Makes(db, mode, effect, db') && Retired(db, a, p)
    ensures Retired(db', a, p)
  {
  }

  lemma StepEffect(s: State, action: Action, p: Id, until: Time)
    ensures Makes(s.db, s.mode, EffectOf(s, action), Apply(s, action).db)
    ensures Activation(s.db, EffectOf(s, action), p, until) <==> InTime(s, action, p, until)
  {
    ApplyMakes(s, action);
  }

  // ----- runs -----

  lemma {:induction false} RetiredRun(s: State, actions: seq<Action>, a: Id, p: Id, until: Time)
    requires Retired(s.db, a, p)
    ensures Retired(Run(s, actions).db, a, p) && !EverActive(s, actions, a) && !VerifiedInTime(s, actions, p, until)
    decreases |actions|
  {
    if actions != [] {
      var s' := Apply(s, actions[0]);
      StepEffect(s, actions[0], p, until);
      RetiredEffect(s.db, s.mode, EffectOf(s, actions[0]), s'.db, a, p);
      RetiredRun(s', actions[1..], a, p, until);
    }
  }

  /** A trial authorization becomes active in a run if and only if a verification of its owner commits with a clock
      reading at or before the end of the trial. */
  lemma {:induction false} ActivatedExactly(s: State, actions: seq<Action>, a: Id, until: Time)
    requires OnTrial(s.db.authorizations, a, until)
    ensures EverActive(s, actions, a) <==> VerifiedInTime(s, actions, s.db.authorizations[a].principal, until)
    decreases |actions|
  {
    if actions != [] {
      var s', p := Apply(s, actions[0]), s.db.authorizations[a].principal;
      StepEffect(s, actions[0], p, until);
      TrialEffect(s.db, s.mode, EffectOf(s, actions[0]), s'.db, a, until);
      if OnTrial(s'.db.authorizations, a, until) {
        ActivatedExactly(s', actions[1..], a, until);
      } else if Retired(s'.db, a, p) {
        RetiredRun(s', actions[1..], a, p, until);
      }
    }
  }

  lemma {:induction false} TrialRun(s: State, actions: seq<Action>, a: Id, until: Time)
    requires OnTrial(s.db.authorizations, a, until) &&
             !VerifiedInTime(s, actions, s.db.authorizations[a].principal, until)
    ensures OnTrial(Run(s, actions).db.authorizations, a, until) ||
            Retired(Run(s, actions).db, a, s.db.authorizations[a].principal)
    decreases |actions|
  {
    if actions != [] {
      var s', p := Apply(s, actions[0]), s.db.authorizations[a].principal;
      StepEffect(s, actions[0], p, until);
      TrialEffect(s.db, s.mode, EffectOf(s, actions[0]), s'.db, a, until);
      if OnTrial(s'.db.authorizations, a, until) {
        TrialRun(s', actions[1..], a, until);
      } else {
        RetiredRun(s', actions[1..], a, p, until);
      }
    }
  }

  lemma PastTrialIsDead(db: DB, mode: Mode, a: Id, until: Time, now: Time)
    requires a in db.authorizations &&
             (OnTrial(db.authorizations, a, until) || db.authorizations[a].state.AuthRevoked?) && until <= now
    ensures forall f, access ::
              f in db.families && db.families[f].authorization == a ==> !Authorizes(db, mode, f, access, now)
    ensures forall token :: Discovered(db, token) && AuthorityOf(db, token).authorizationId == a ==>
              LockAuthority(db, mode, token, now).None?
  {
  }

  /** Unless such a verification commits, no bundle request and no rotation whose clock reading is at or past the end
      of the trial succeeds for that authorization, however the run goes on. */
  lemma LapsedNeverAuthorizes(s: State, actions: seq<Action>, a: Id, until: Time, now: Time)
    requires OnTrial(s.db.authorizations, a, until) && until <= now
    requires !VerifiedInTime(s, actions, s.db.authorizations[a].principal, until)
    ensures var s' := Run(s, actions);
            && (forall f, access :: f in s'.db.families && s'.db.families[f].authorization == a ==>
                  !Authorizes(s'.db, s'.mode, f, access, now))
            && (forall token :: Discovered(s'.db, token) && AuthorityOf(s'.db, token).authorizationId == a ==>
                  LockAuthority(s'.db, s'.mode, token, now).None?)
  {
    TrialRun(s, actions, a, until);
    PastTrialIsDead(Run(s, actions).db, Run(s, actions).mode, a, until, now);
  }

  // ----- the verification in flight -----

  /** A verification that read the clock in time and commits after the trial ended activates the authorization all the
      same. */
  lemma StaleVerificationRevives(s: State, a: Id, until: Time, at: Time)
    requires OnTrial(s.db.authorizations, a, until) && Pending(s.db.accounts, s.db.authorizations[a].principal)
    requires at <= until < s.clock
    ensures var s' := Apply(s, Verify(s.db.authorizations[a].principal, at));
            a in s'.db.authorizations && s'.db.authorizations[a].state.Authorized?
  {
  }

  /** Such a state is reachable: an account created on a whole second enrolls a device and lets its trial pass. */
  lemma LapseIsReachable() returns (s: State, a: Id, until: Time)
    ensures Reachable(s) && OnTrial(s.db.authorizations, a, until) && until < s.clock
    ensures Pending(s.db.accounts, s.db.authorizations[a].principal)
  {
    var s0 := State(EMPTY_DB, EmailGrace, 0, map[], map[], map[], {}, 0);
    assert s0 == Run(s0, []);
    assert Reachable(s0);
    var s3 := GrantedTrial(s0);
    var e := Enrollment(7, 8, TrialRestricted, Some(GRACE));
    var x := Fresh(1, 2, 3, 4, 5);
    var c := Enroll(13, 1, 1, 1, 1, 1, Signature(1, RotationTranscript(1, 1, 1)), 1);
    ReachableStep(s3, Register(c, e, x, 0));
    var s4 := Apply(s3, Register(c, e, x, 0));
    TrialRegisters(s3, c, e, x);
    ReachableStep(s4, Tick(GRACE + 1));
    s, a, until := Apply(s4, Tick(GRACE + 1)), 2, GRACE;
  }

  lemma GrantedTrial(s0: State) returns (s: State)
    requires Reachable(s0) && s0 == State(EMPTY_DB, EmailGrace, 0, map[], map[], map[], {}, 0)
    ensures Reachable(s) && s == s0.(db := s.db) && s.db == EMPTY_DB.(
              accounts := map[7 := Account(PendingEmail, 1, 0)],
              sessions := map[8 := Session(7, SessionActive, 1, 11, ACCESS_TTL, GRACE, None)],
              accountRefresh := s.db.accountRefresh,
              grants := map[13 := Grant(7, 8, TrialRestricted, Some(GRACE), Unused, GRANT_TTL, None)])
  {
    ReachableStep(s0, SignUp(7, 0));
    var s1 := Apply(s0, SignUp(7, 0));
    assert s1.db == EMPTY_DB.(accounts := map[7 := Account(PendingEmail, 1, 0)]);
    ReachableStep(s1, SignIn(7, 8, 11, 12, 0));
    var s2 := Apply(s1, SignIn(7, 8, 11, 12, 0));
    assert s2.db.sessions == map[8 := Session(7, SessionActive, 1, 11, ACCESS_TTL, GRACE, None)];
    ReachableStep(s2, MakeGrant(7, 8, 13, 0));
    s := Apply(s2, MakeGrant(7, 8, 13, 0));
  }

  lemma TrialRegisters(s: State, c: Enroll, e: Enrollment, x: Fresh)
    requires s.clock == 0 && s.mode.EmailGrace? && s.seen == {}
    requires s.db == EMPTY_DB.(
               accounts := map[7 := Account(PendingEmail, 1, 0)],
               sessions := map[8 := Session(7, SessionActive, 1, 11, ACCESS_TTL, GRACE, None)],
               accountRefresh := s.db.accountRefresh,
               grants := map[13 := Grant(7, 8, TrialRestricted, Some(GRACE), Unused, GRANT_TTL, None)])
    requires c.grant == 13 && e == Enrollment(7, 8, TrialRestricted, Some(GRACE)) && x == Fresh(1, 2, 3, 4, 5)
    ensures var db' := Apply(s, Register(c, e, x, 0)).db;
            OnTrial(db'.authorizations, 2, GRACE) && db'.authorizations[2].principal == 7 &&
            db'.accounts == s.db.accounts
  {
    assert ValidateEnrollment(s.db, c.grant, 0) == Some(e);
    assert PolicyFor(e, 0) == Some((Provisional, TrialPolicy(GRACE / SECOND, "1")));
    assert InsertsAccepted(s.db, e, Provisional, c, x);
  }
}
