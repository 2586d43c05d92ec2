/** Seventeen actions change the database in seven ways.  Naming them lets every invariant be proved once per way. */
module Effects {
  import opened Schema
  import opened Identity
  import opened DeviceTx
  import opened Protocol

  datatype Effect =
    | Nothing
    | AccountSide
    | Rotating(g: Authority, times: DeviceTimes, access: Hash, refresh: Hash, key: RecordKey, request: Request,
               now: Time)
    | Compromising(g: Authority, key: RecordKey, request: Request, now: Time)
    | Revoking(revocation: Revocation, authorization: Id, key: RecordKey, now: Time)
    | Registering(enroll: Enroll, e: Enrollment, state: AuthState, policy: Policy, x: Fresh, now: Time)
    | Activating(principal: Id, now: Time)
    | Pruning(cutoff: Time)

  /** The graph behind a locked token, and the unused record its request starts. */
  predicate Locked(db: DB, mode: Mode, g: Authority, key: RecordKey, request: Request, now: Time) {
    && Discovered(db, g.token) && g == AuthorityOf(db, g.token) && AuthorityValid(mode, g, now)
    && AccountAuthority(db, g.authorization.principal, now)
    && key.scope == RotateScope(g.authorization.principal) && key !in db.records
    && request.RotateRequest? && request.refresh == g.token
  }

  ghost predicate Makes(db: DB, mode: Mode, effect: Effect, db': DB) {
    match effect
    case Nothing => db' == db
    case AccountSide => AccountSideStep(db, db')
    case Rotating(g, times, access, refresh, key, request, now) =>
      && Locked(db, mode, g, key, request, now) && g.state.Active? && RotatedTimes(g, now) == Some(times)
      && access != 0 && refresh != 0 && refresh !in db.refresh && AccessHashFree(db.families, access)
      && db' == Rotate(db, g, times, access, refresh, key, request, now)
    case Compromising(g, key, request, now) =>
      && Locked(db, mode, g, key, request, now) && g.state.Used?
      && db' == Compromise(db, g, key, request, now)
    case Revoking(r, a, key, now) =>
      && RevocationValid(db, r, a) && key == RecordKey(RevokeScope(r.principal), r.key) && key !in db.records
      && ValidateRevocation(db, r.principal, r.session, now)
      && db' == RevokeGraph(db, r, a, key, now)
    case Registering(c, e, state, policy, x, now) =>
      && ValidateEnrollment(db, c.grant, now) == Some(e) && EnrollmentMode(mode, e, now) &&
         PolicyFor(e, now) == Some((state, policy))
      && InsertsAccepted(db, e, state, c, x) && RecordKey(RegisterScope, c.key) !in db.records
      && db' == RegisterGraph(db, e, state, policy, c, x, now)
    case Activating(p, now) => db' == VerifyEmail(db, p, now)
    case Pruning(cutoff) => db' == db.(records := PruneRecords(db.records, cutoff))
  }

  function LockedEffect(db: DB, mode: Mode, c: Command, now: Time, rotate: Option<(Authority, Hash, Hash)>): Effect {
    if !Discovered(db, c.refresh) || AuthorityOf(db, c.refresh).authorization.principal == 0 ||
       !Begin(db.records, RecordKeyOf(db, c), RequestOf(c), now).Started? then Nothing else
      var locked := LockAuthority(db, mode, c.refresh, now);
      if locked.None? || (rotate.Some? && !SameAuthority(rotate.value.0, locked.value)) then Nothing
      else if locked.value.state.Used? then Compromising(locked.value, RecordKeyOf(db, c), RequestOf(c), now)
      else if rotate.None? then Nothing
      else
        var times := RotatedTimes(locked.value, now);
        if times.None? || rotate.value.1 == 0 || rotate.value.2 == 0 || rotate.value.2 in db.refresh ||
           !AccessHashFree(db.families, rotate.value.1) then Nothing
        else Rotating(locked.value, times.value, rotate.value.1, rotate.value.2, RecordKeyOf(db, c), RequestOf(c), now)
  }

  function EffectOf(s: State, action: Action): Effect {
    match action
    case SignUp(_, _) => AccountSide
    case SignIn(_, _, _, _, _) => AccountSide
    case RefreshSession(_, _, _, _) => AccountSide
    case RequireReview(_) => AccountSide
    case EndSessions(_) => AccountSide
    case MakeGrant(_, _, _, _) => AccountSide
    case Verify(p, at) => if at <= s.clock then Activating(p, at) else Nothing
    case Register(c, found, x, at) =>
      if at <= s.clock && FreshPair(s, x.access, x.refresh) && RegisterTx(s.db, s.mode, c, found, x, at).db != s.db
      then Registering(c, found, PolicyFor(found, at).value.0, PolicyFor(found, at).value.1, x, at) else Nothing
    case Revoke(r, a, at) =>
      if at <= s.clock && RevokeTx(s.db, r, a, at).db != s.db
      then Revoking(r, a, RecordKey(RevokeScope(r.principal), r.key), at) else Nothing
    case Preflight(r, fault) =>
      if r in s.attempts && s.attempts[r].phase.AtPreflight? && !fault.Abort?
      then LockedEffect(s.db, s.mode, s.attempts[r].command, s.attempts[r].now, None) else Nothing
    case Reclassify(r, fault) =>
      if r in s.attempts && s.attempts[r].phase.AtReclassify? && !fault.Abort?
      then LockedEffect(s.db, s.mode, s.attempts[r].command, s.attempts[r].now, None) else Nothing
    case Final(r, access, refresh, fault) =>
      if r in s.attempts && s.attempts[r].phase.AtFinal? && FreshPair(s, access, refresh) && !fault.Abort?
      then LockedEffect(s.db, s.mode, s.attempts[r].command, s.attempts[r].now,
                        Some((s.attempts[r].phase.authority, access, refresh))) else Nothing
    case Prune(cutoff) => if cutoff <= s.clock then Pruning(cutoff) else Nothing
    case _ => Nothing
  }

  lemma PreflightMakes(db: DB, mode: Mode, c: Command, now: Time)
    ensures Makes(db, mode, LockedEffect(db, mode, c, now, None), PreflightTx(db, mode, c, now).db)
  {
  }

  lemma ReclassifyMakes(db: DB, mode: Mode, c: Command, now: Time, ambiguous: bool)
    ensures Makes(db, mode, LockedEffect(db, mode, c, now, None), ReclassifyTx(db, mode, c, now, ambiguous).db)
  {
  }

  lemma FinalMakes(db: DB, mode: Mode, c: Command, now: Time, g: Authority, access: Hash, refresh: Hash)
    ensures Makes(db, mode, LockedEffect(db, mode, c, now, Some((g, access, refresh))),
                  FinalTx(db, mode, c, now, g, access, refresh).db)
  {
  }

  lemma RevokeMakes(db: DB, mode: Mode, r: Revocation, a: Id, now: Time)
    requires RevokeTx(db, r, a, now).db != db
    ensures Makes(db, mode, Revoking(r, a, RecordKey(RevokeScope(r.principal), r.key), now), RevokeTx(db, r, a, now).db)
  {
  }

  lemma RegisterMakes(db: DB, mode: Mode, c: Enroll, e: Enrollment, x: Fresh, now: Time)
    requires RegisterTx(db, mode, c, e, x, now).db != db
    ensures PolicyFor(e, now).Some?
    ensures Makes(db, mode, Registering(c, e, PolicyFor(e, now).value.0, PolicyFor(e, now).value.1, x, now),
                  RegisterTx(db, mode, c, e, x, now).db)
  {
  }

  lemma PreflightStep(s: State, r: Id, fault: Fault)
    ensures Makes(s.db, s.mode, EffectOf(s, Preflight(r, fault)), Apply(s, Preflight(r, fault)).db)
  {
    if r in s.attempts { PreflightMakes(s.db, s.mode, s.attempts[r].command, s.attempts[r].now); }
  }

  lemma ReclassifyStep(s: State, r: Id, fault: Fault)
    ensures Makes(s.db, s.mode, EffectOf(s, Reclassify(r, fault)), Apply(s, Reclassify(r, fault)).db)
  {
    if r in s.attempts && s.attempts[r].phase.AtReclassify? {
      ReclassifyMakes(s.db, s.mode, s.attempts[r].command, s.attempts[r].now, s.attempts[r].phase.ambiguous);
    }
  }

  lemma FinalStep(s: State, r: Id, access: Hash, refresh: Hash, fault: Fault)
    ensures Makes(s.db, s.mode, EffectOf(s, Final(r, access, refresh, fault)),
                  Apply(s, Final(r, access, refresh, fault)).db)
  {
    if r in s.attempts && s.attempts[r].phase.AtFinal? {
      FinalMakes(s.db, s.mode, s.attempts[r].command, s.attempts[r].now, s.attempts[r].phase.authority, access,
                 refresh);
    }
  }

  lemma RegisterStep(s: State, c: Enroll, e: Enrollment, x: Fresh, at: Time)
    ensures Makes(s.db, s.mode, EffectOf(s, Register(c, e, x, at)), Apply(s, Register(c, e, x, at)).db)
  {
    if RegisterTx(s.db, s.mode, c, e, x, at).db != s.db { RegisterMakes(s.db, s.mode, c, e, x, at); }
  }

  lemma RevokeStep(s: State, r: Revocation, a: Id, at: Time)
    ensures Makes(s.db, s.mode, EffectOf(s, Revoke(r, a, at)), Apply(s, Revoke(r, a, at)).db)
  {
    if RevokeTx(s.db, r, a, at).db != s.db { RevokeMakes(s.db, s.mode, r, a, at); }
  }

  lemma NoStepIsAccountSide(db: DB)
    ensures AccountSideStep(db, db)
  {
  }

  lemma AccountStep(s: State, action: Action)
    requires action.SignUp? || action.SignIn? || action.RefreshSession? || action.RequireReview? ||
             action.EndSessions? || action.MakeGrant?
    ensures AccountSideStep(s.db, Apply(s, action).db)
  {
    NoStepIsAccountSide(s.db);
    match action
    case SignUp(p, at) => SignUpIsAccountSide(s.db, s.mode, p, at);
    case SignIn(p, sid, access, refresh, at) => SignInIsAccountSide(s.db, s.mode, p, sid, access, refresh, at);
    case RefreshSession(t, access, refresh, at) => RefreshIsAccountSide(s.db, s.mode, t, access, refresh, at);
    case RequireReview(p) => ReviewIsAccountSide(s.db, p);
    case EndSessions(which) => RevokeIsAccountSide(s.db, which);
    case MakeGrant(p, sid, grant, at) => GrantIsAccountSide(s.db, s.mode, p, sid, grant, at);
  }

  lemma OtherStep(s: State, action: Action)
    requires action.Tick? || action.Verify? || action.IssueChallenge? || action.Start? || action.Consume? ||
             action.Prune?
    ensures Makes(s.db, s.mode, EffectOf(s, action), Apply(s, action).db)
  {
  }

  /** Every action changes the database in the way named by its effect. */
  lemma ApplyMakes(s: State, action: Action)
    ensures Makes(s.db, s.mode, EffectOf(s, action), Apply(s, action).db)
  {
    match action
    case Register(c, e, x, at) => RegisterStep(s, c, e, x, at);
    case Revoke(r, a, at) => RevokeStep(s, r, a, at);
    case Preflight(r, fault) => PreflightStep(s, r, fault);
    case Reclassify(r, fault) => ReclassifyStep(s, r, fault);
    case Final(r, access, refresh, fault) => FinalStep(s, r, access, refresh, fault);
    case _ =>
      if action.SignUp? || action.SignIn? || action.RefreshSession? || action.RequireReview? || action.EndSessions? ||
         action.MakeGrant? {
        AccountStep(s, action);
      } else {
        OtherStep(s, action);
      }
  }
}
