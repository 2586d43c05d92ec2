/** What no step undoes. */
module History {
  import opened Schema
  import opened Identity
  import opened DeviceTx
  import opened Protocol
  import opened Effects

  predicate FamilyLater(x: Family, y: Family) {
    && y.authorization == x.authorization && y.createdAt == x.createdAt && y.absoluteExpires == x.absoluteExpires
    && x.version <= y.version && (x.version == y.version ==> y == x)
    && (y.state.FamilyActive? ==> x.state.FamilyActive?)
    && (x.state.FamilyRevoked? ==> y == x)
  }

  predicate TokenLater(x: Refresh, y: Refresh) {
    y.family == x.family && y.previous == x.previous && (!x.state.Active? ==> y == x)
  }

  predicate AuthorizationLater(x: Authorization, y: Authorization) {
    && y.principal == x.principal && y.device == x.device && x.version <= y.version
    && (x.version == y.version ==> y == x)
    && (y.state.Provisional? ==> y == x)
    && (x.state.AuthRevoked? ==> y == x)
  }

  predicate DeviceLater(x: Device, y: Device) {
    && y.principal == x.principal && y.signingKey == x.signingKey && y.hpkeKey == x.hpkeKey &&
       y.keyVersion == x.keyVersion
    && (x.state.DeviceRevoked? ==> y == x)
  }

  predicate AccountLater(x: Account, y: Account) {
    y.createdAt == x.createdAt && (!x.state.PendingEmail? ==> y == x)
  }

  ghost predicate FamiliesGrow(x: map<Id, Family>, y: map<Id, Family>) {
    forall f {:trigger y[f]} {:trigger x[f]} :: f in x ==> f in y && FamilyLater(x[f], y[f])
  }

  ghost predicate TokensGrow(x: map<Hash, Refresh>, y: map<Hash, Refresh>) {
    forall h {:trigger y[h]} {:trigger x[h]} :: h in x ==> h in y && TokenLater(x[h], y[h])
  }

  ghost predicate AuthorizationsGrow(x: map<Id, Authorization>, y: map<Id, Authorization>) {
    forall a {:trigger y[a]} {:trigger x[a]} :: a in x ==> a in y && AuthorizationLater(x[a], y[a])
  }

  ghost predicate DevicesGrow(x: map<Id, Device>, y: map<Id, Device>) {
    forall d {:trigger y[d]} {:trigger x[d]} :: d in x ==> d in y && DeviceLater(x[d], y[d])
  }

  ghost predicate AccountsGrow(x: map<Id, Account>, y: map<Id, Account>) {
    forall p {:trigger y[p]} {:trigger x[p]} :: p in x ==> p in y && AccountLater(x[p], y[p])
  }

  ghost predicate GrantsGrow(x: map<Hash, Grant>, y: map<Hash, Grant>) {
    forall g {:trigger y[g]} {:trigger x[g]} :: g in x ==> g in y && (!x[g].state.Unused? ==> y[g] == x[g])
  }

  ghost predicate PoliciesGrow(x: map<Id, Policy>, y: map<Id, Policy>) {
    forall a {:trigger y[a]} {:trigger x[a]} :: a in x ==> a in y && y[a] == x[a]
  }

  /** `y` may come after `x`: rows never disappear, retired rows never change again, and what identifies a row is
      fixed. */
  ghost predicate Later(x: DB, y: DB) {
    && FamiliesGrow(x.families, y.families) && TokensGrow(x.refresh, y.refresh)
    && AuthorizationsGrow(x.authorizations, y.authorizations) && DevicesGrow(x.devices, y.devices)
    && PoliciesGrow(x.policies, y.policies) && GrantsGrow(x.grants, y.grants) && AccountsGrow(x.accounts, y.accounts)
    && x.events <= y.events
  }

  lemma LaterTransitive(x: DB, y: DB, z: DB)
    requires Later(x, y) && Later(y, z)
    ensures Later(x, z)
  {
  }

  lemma RotationForward(db: DB, g: Authority, times: DeviceTimes, access: Hash, refresh: Hash, key: RecordKey,
                        request: Request, now: Time)
    requires Discovered(db, g.token) && g == AuthorityOf(db, g.token) && g.state.Active? &&
             g.family.state.FamilyActive? && refresh !in db.refresh
    ensures Later(db, Rotate(db, g, times, access, refresh, key, request, now))
  {
  }

  lemma CompromiseForward(db: DB, g: Authority, key: RecordKey, request: Request, now: Time)
    requires Discovered(db, g.token) && g == AuthorityOf(db, g.token) && g.family.state.FamilyActive?
    ensures Later(db, Compromise(db, g, key, request, now))
  {
  }

  lemma RevocationForward(db: DB, r: Revocation, a: Id, key: RecordKey, now: Time)
    requires RevocationValid(db, r, a)
    ensures Later(db, RevokeGraph(db, r, a, key, now))
  {
  }

  lemma RegistrationForward(db: DB, e: Enrollment, state: AuthState, policy: Policy, c: Enroll, x: Fresh, now: Time)
    requires ValidateEnrollment(db, c.grant, now) == Some(e) && InsertsAccepted(db, e, state, c, x)
    ensures Later(db, RegisterGraph(db, e, state, policy, c, x, now))
  {
  }

  lemma ActivatedAuthorizations(x: map<Id, Authorization>, p: Id, now: Time)
    ensures AuthorizationsGrow(x, ActivateProvisional(x, p, now))
  {
  }

  lemma ActivatedAccount(x: map<Id, Account>, p: Id)
    requires p in x && x[p].state.PendingEmail?
    ensures AccountsGrow(x, x[p := x[p].(state := AccountActive, version := x[p].version + 1)])
  {
  }

  lemma ActivationForward(db: DB, p: Id, now: Time)
    ensures Later(db, VerifyEmail(db, p, now))
  {
    ActivatedAuthorizations(db.authorizations, p, now);
    if p in db.accounts && db.accounts[p].state.PendingEmail? { ActivatedAccount(db.accounts, p); }
  }

  lemma AccountForward(db: DB, db': DB)
    requires AccountSideStep(db, db')
    ensures Later(db, db')
  {
  }

  lemma EffectMovesForward(db: DB, mode: Mode, effect: Effect, db': DB)
    requires Makes(db, mode, effect, db')
    ensures Later(db, db')
  {
    match effect
    case Rotating(g, times, access, refresh, key, request, now) =>
      RotationForward(db, g, times, access, refresh, key, request, now);
    case Compromising(g, key, request, now) => CompromiseForward(db, g, key, request, now);
    case Revoking(r, a, key, now) => RevocationForward(db, r, a, key, now);
    case Registering(c, e, state, policy, x, now) => RegistrationForward(db, e, state, policy, c, x, now);
    case Activating(p, now) => ActivationForward(db, p, now);
    case AccountSide => AccountForward(db, db');
    case _ =>
  }

  /** Every step of every client moves the database forward. */
  lemma StepMovesForward(s: State, action: Action)
    ensures Later(s.db, Apply(s, action).db)
  {
    ApplyMakes(s, action);
    EffectMovesForward(s.db, s.mode, EffectOf(s, action), Apply(s, action).db);
  }

  /** Every run moves the database forward. */
  lemma RunMovesForward(s: State, actions: seq<Action>)
    ensures Later(s.db, Run(s, actions).db)
    decreases |actions|
  {
    if actions != [] {
      StepMovesForward(s, actions[0]);
      RunMovesForward(Apply(s, actions[0]), actions[1..]);
      LaterTransitive(s.db, Apply(s, actions[0]).db, Run(s, actions).db);
    }
  }
}
