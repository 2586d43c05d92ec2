/** Every registered device is a whole graph: one grant, one authorization, one policy, one family, one session. */
module Graph {
  import opened Schema
  import opened Identity
  import opened DeviceTx
  import opened Protocol
  import opened Effects

  // ----- existence -----

  ghost predicate Granted(grants: map<Hash, Grant>, d: Id) {
    exists g :: g in grants && grants[g].consumedDevice == Some(d)
  }
  ghost predicate HasAuthorization(authorizations: map<Id, Authorization>, d: Id) {
    exists a :: a in authorizations && authorizations[a].device == d
  }
  ghost predicate HasFamily(families: map<Id, Family>, a: Id) {
    exists f :: f in families && families[f].authorization == a
  }
  ghost predicate HasSession(sessions: map<Id, Session>, a: Id) {
    exists s :: s in sessions && sessions[s].authorization == Some(a)
  }

  /** The snapshot written at registration still fits the authorization's state. */
  predicate PolicyFits(row: Authorization, policy: Policy) {
    match row.state
    case Provisional => row.provisionalUntil.Some? && policy == TrialPolicy(row.provisionalUntil.value / SECOND, "1")
    case _ => policy.StandardPolicy? || policy.maxDevices == "1"
  }

  // ----- exactly one -----

  ghost predicate GrantLinks(grants: map<Hash, Grant>, devices: map<Id, Device>) {
    && (forall g {:trigger grants[g]} :: g in grants ==>
          && (grants[g].state.Consumed? <==> grants[g].consumedDevice.Some?)
          && (grants[g].consumedDevice.Some? ==>
                grants[g].consumedDevice.value in devices &&
                devices[grants[g].consumedDevice.value].principal == grants[g].principal))
    && (forall g, g' {:trigger grants[g], grants[g']} ::
          && g in grants && g' in grants && grants[g].consumedDevice.Some?
          && grants[g].consumedDevice == grants[g'].consumedDevice
          ==> g == g')
    && (forall d {:trigger Granted(grants, d)} :: d in devices ==> Granted(grants, d))
  }

  ghost predicate AuthorizationLinks(authorizations: map<Id, Authorization>, devices: map<Id, Device>,
                                     policies: map<Id, Policy>) {
    && (forall a {:trigger authorizations[a]} :: a in authorizations ==>
          && authorizations[a].device in devices &&
             devices[authorizations[a].device].principal == authorizations[a].principal
          && a in policies && PolicyFits(authorizations[a], policies[a]))
    && (forall a, a' {:trigger authorizations[a], authorizations[a']} ::
          a in authorizations && a' in authorizations && authorizations[a].device == authorizations[a'].device ==>
            a == a')
    && (forall d {:trigger HasAuthorization(authorizations, d)} :: d in devices ==> HasAuthorization(authorizations, d))
  }

  ghost predicate FamilyLinks(families: map<Id, Family>, authorizations: map<Id, Authorization>) {
    && (forall f {:trigger families[f]} :: f in families ==> families[f].authorization in authorizations)
    && (forall f, f' {:trigger families[f], families[f']} ::
          f in families && f' in families && families[f].authorization == families[f'].authorization ==> f == f')
    && (forall a {:trigger HasFamily(families, a)} :: a in authorizations ==> HasFamily(families, a))
  }

  ghost predicate SessionLinks(sessions: map<Id, Session>, authorizations: map<Id, Authorization>) {
    && (forall s {:trigger sessions[s]} :: s in sessions && sessions[s].authorization.Some? ==>
          && sessions[s].authorization.value in authorizations
          && authorizations[sessions[s].authorization.value].principal == sessions[s].principal)
    && (forall s, s' {:trigger sessions[s], sessions[s']} ::
          && s in sessions && s' in sessions && sessions[s].authorization.Some?
          && sessions[s].authorization == sessions[s'].authorization
          ==> s == s')
    && (forall a {:trigger HasSession(sessions, a)} :: a in authorizations ==> HasSession(sessions, a))
  }

  ghost predicate GraphInv(db: DB) {
    && GrantLinks(db.grants, db.devices) && AuthorizationLinks(db.authorizations, db.devices, db.policies)
    && FamilyLinks(db.families, db.authorizations) && SessionLinks(db.sessions, db.authorizations)
  }

  // ----- frames: changes that keep every link column -----

  lemma FamiliesFrame(x: map<Id, Family>, y: map<Id, Family>, a: map<Id, Authorization>, b: map<Id, Authorization>)
    requires FamilyLinks(x, a) && x.Keys == y.Keys && a.Keys == b.Keys
    requires forall f {:trigger x[f]} {:trigger y[f]} :: f in x ==> y[f].authorization == x[f].authorization
    ensures FamilyLinks(y, b)
  {
    forall k | k in b ensures HasFamily(y, k) {
      assert HasFamily(x, k);
      var f :| f in x && x[f].authorization == k;
      assert y[f].authorization == k;
    }
  }

  ghost predicate SameOwners(a: map<Id, Authorization>, b: map<Id, Authorization>) {
    a.Keys == b.Keys && forall k {:trigger a[k]} {:trigger b[k]} :: k in a ==> b[k].principal == a[k].principal
  }

  lemma SessionsFrame(x: map<Id, Session>, y: map<Id, Session>, a: map<Id, Authorization>, b: map<Id, Authorization>)
    requires SessionLinks(x, a) && SameOwners(a, b) && SessionLinksKept(x, y)
    ensures SessionLinks(y, b)
  {
    forall k | k in b ensures HasSession(y, k) {
      assert HasSession(x, k);
      var s :| s in x && x[s].authorization == Some(k);
      assert y[s].authorization == Some(k);
    }
  }

  lemma AuthorizationsFrame(x: map<Id, Authorization>, y: map<Id, Authorization>, d: map<Id, Device>,
                            e: map<Id, Device>, policies: map<Id, Policy>)
    requires AuthorizationLinks(x, d, policies) && x.Keys == y.Keys && d.Keys == e.Keys
    requires forall a {:trigger x[a]} {:trigger y[a]} ::
               a in x ==> y[a].device == x[a].device && y[a].principal == x[a].principal &&
                          (y[a].state.Provisional? ==> y[a] == x[a])
    requires forall k {:trigger d[k]} {:trigger e[k]} :: k in d ==> e[k].principal == d[k].principal
    ensures AuthorizationLinks(y, e, policies)
  {
    forall k | k in e ensures HasAuthorization(y, k) {
      assert HasAuthorization(x, k);
      var a :| a in x && x[a].device == k;
      assert y[a].device == k;
    }
    forall a | a in y ensures PolicyFits(y[a], policies[a]) { assert PolicyFits(x[a], policies[a]); }
  }

  lemma GrantsFrame(x: map<Hash, Grant>, y: map<Hash, Grant>, d: map<Id, Device>, e: map<Id, Device>)
    requires GrantLinks(x, d) && d.Keys == e.Keys
    requires forall g {:trigger x[g]} {:trigger y[g]} :: g in x ==> g in y && y[g] == x[g]
    requires forall g {:trigger y[g]} :: g in y && g !in x ==> y[g].consumedDevice.None? && !y[g].state.Consumed?
    requires forall k {:trigger d[k]} {:trigger e[k]} :: k in d ==> e[k].principal == d[k].principal
    ensures GrantLinks(y, e)
  {
    forall k | k in e ensures Granted(y, k) {
      assert Granted(x, k);
      var g :| g in x && x[g].consumedDevice == Some(k);
      assert y[g].consumedDevice == Some(k);
    }
  }

  // ----- registration adds one whole graph -----

  lemma FamilyAdded(x: map<Id, Family>, a: map<Id, Authorization>, f: Id, row: Family, k: Id,
                    authorization: Authorization)
    requires FamilyLinks(x, a) && f !in x && k !in a && row.authorization == k
    ensures FamilyLinks(x[f := row], a[k := authorization])
  {
    var y := x[f := row];
    assert y[f].authorization == k;
    forall j | j in a ensures HasFamily(y, j) {
      assert HasFamily(x, j);
      var g :| g in x && x[g].authorization == j;
      assert y[g].authorization == j;
    }
  }

  lemma SessionBound(x: map<Id, Session>, a: map<Id, Authorization>, s: Id, row: Session, k: Id,
                     authorization: Authorization)
    requires SessionLinks(x, a) && s in x && x[s].authorization.None? && k !in a
    requires row.authorization == Some(k) && row.principal == authorization.principal
    ensures SessionLinks(x[s := row], a[k := authorization])
  {
    var y := x[s := row];
    assert y[s].authorization == Some(k);
    forall j | j in a ensures HasSession(y, j) {
      assert HasSession(x, j);
      var t :| t in x && x[t].authorization == Some(j);
      assert y[t].authorization == Some(j);
    }
  }

  lemma AuthorizationAdded(x: map<Id, Authorization>, devices: map<Id, Device>, policies: map<Id, Policy>,
                           a: Id, row: Authorization, d: Id, device: Device, policy: Policy)
    requires AuthorizationLinks(x, devices, policies) && a !in x && d !in devices
    requires row.device == d && device.principal == row.principal && PolicyFits(row, policy)
    ensures AuthorizationLinks(x[a := row], devices[d := device], policies[a := policy])
  {
    var y := x[a := row];
    assert y[a].device == d;
    forall k | k in devices ensures HasAuthorization(y, k) {
      assert HasAuthorization(x, k);
      var b :| b in x && x[b].device == k;
      assert y[b].device == k;
    }
    forall b | b in x ensures PolicyFits(y[b], policies[a := policy][b]) { assert PolicyFits(x[b], policies[b]); }
  }

  lemma GrantConsumed(x: map<Hash, Grant>, devices: map<Id, Device>, g: Hash, d: Id, device: Device)
    requires GrantLinks(x, devices) && g in x && x[g].state.Unused? && d !in devices &&
             device.principal == x[g].principal
    ensures GrantLinks(x[g := x[g].(state := Consumed, consumedDevice := Some(d))], devices[d := device])
  {
    var y := x[g := x[g].(state := Consumed, consumedDevice := Some(d))];
    assert y[g].consumedDevice == Some(d);
    forall k | k in devices ensures Granted(y, k) {
      assert Granted(x, k);
      var h :| h in x && x[h].consumedDevice == Some(k);
      assert y[h].consumedDevice == Some(k);
    }
  }

  lemma RegisterKeeps(db: DB, mode: Mode, e: Enrollment, state: AuthState, policy: Policy, c: Enroll, x: Fresh,
                      now: Time)
    requires GraphInv(db) && ValidateEnrollment(db, c.grant, now) == Some(e) &&
             PolicyFor(e, now) == Some((state, policy))
    requires InsertsAccepted(db, e, state, c, x)
    ensures GraphInv(RegisterGraph(db, e, state, policy, c, x, now))
  {
    var db' := RegisterGraph(db, e, state, policy, c, x, now);
    GrantConsumed(db.grants, db.devices, c.grant, x.device, db'.devices[x.device]);
    AuthorizationAdded(db.authorizations, db.devices, db.policies, x.authorization, db'.authorizations[x.authorization],
                       x.device, db'.devices[x.device], policy);
    FamilyAdded(db.families, db.authorizations, x.family, db'.families[x.family], x.authorization,
                db'.authorizations[x.authorization]);
    SessionBound(db.sessions, db.authorizations, e.session, db'.sessions[e.session], x.authorization,
                 db'.authorizations[x.authorization]);
  }

  // ----- every other effect keeps the links -----

  lemma RevokedOwners(db: DB, db': DB, r: Revocation, a: Id, key: RecordKey, now: Time)
    requires GrantLinks(db.grants, db.devices) && AuthorizationLinks(db.authorizations, db.devices, db.policies) &&
             RevocationValid(db, r, a)
    requires db' == RevokeGraph(db, r, a, key, now)
    ensures GrantLinks(db'.grants, db'.devices) && AuthorizationLinks(db'.authorizations, db'.devices, db'.policies)
    ensures SameOwners(db.authorizations, db'.authorizations)
  {
    GrantsFrame(db.grants, db'.grants, db.devices, db'.devices);
    AuthorizationsFrame(db.authorizations, db'.authorizations, db.devices, db'.devices, db.policies);
  }

  lemma RevokedMembers(families: map<Id, Family>, sessions: map<Id, Session>, x: map<Id, Authorization>,
                       y: map<Id, Authorization>, a: Id, which: set<Id>)
    requires FamilyLinks(families, x) && SessionLinks(sessions, x) && SameOwners(x, y)
    ensures FamilyLinks(RevokeFamilies(families, a), y) && SessionLinks(RetireSessions(sessions, which), y)
  {
    FamiliesFrame(families, RevokeFamilies(families, a), x, y);
    SessionsFrame(sessions, RetireSessions(sessions, which), x, y);
  }

  lemma RevokeKeeps(db: DB, r: Revocation, a: Id, key: RecordKey, now: Time)
    requires GraphInv(db) && RevocationValid(db, r, a)
    ensures GraphInv(RevokeGraph(db, r, a, key, now))
  {
    var db' := RevokeGraph(db, r, a, key, now);
    RevokedOwners(db, db', r, a, key, now);
    RevokedMembers(db.families, db.sessions, db.authorizations, db'.authorizations, a, BoundSessions(db.sessions, a));
  }

  lemma ActivationKeeps(x: map<Id, Authorization>, p: Id, now: Time, devices: map<Id, Device>,
                        policies: map<Id, Policy>)
    requires AuthorizationLinks(x, devices, policies)
    ensures AuthorizationLinks(ActivateProvisional(x, p, now), devices, policies)
    ensures SameOwners(x, ActivateProvisional(x, p, now))
  {
    AuthorizationsFrame(x, ActivateProvisional(x, p, now), devices, devices, policies);
  }

  lemma ActivationLinks(x: map<Id, Authorization>, y: map<Id, Authorization>, families: map<Id, Family>,
                        sessions: map<Id, Session>)
    requires FamilyLinks(families, x) && SessionLinks(sessions, x) && SameOwners(x, y)
    ensures FamilyLinks(families, y) && SessionLinks(sessions, y)
  {
    FamiliesFrame(families, families, x, y);
    SessionsFrame(sessions, sessions, x, y);
  }

  lemma VerifyKeeps(db: DB, p: Id, now: Time)
    requires GraphInv(db)
    ensures GraphInv(VerifyEmail(db, p, now))
  {
    ActivationKeeps(db.authorizations, p, now, db.devices, db.policies);
    ActivationLinks(db.authorizations, ActivateProvisional(db.authorizations, p, now), db.families, db.sessions);
  }

  lemma FamilyUpdateKeeps(db: DB, f: Id, row: Family)
    requires GraphInv(db) && f in db.families && row.authorization == db.families[f].authorization
    ensures FamilyLinks(db.families[f := row], db.authorizations)
  {
    FamiliesFrame(db.families, db.families[f := row], db.authorizations, db.authorizations);
  }

  lemma AccountLinks(db: DB, db': DB)
    requires SessionLinks(db.sessions, db.authorizations) && GrantLinks(db.grants, db.devices) &&
             AccountSideStep(db, db')
    ensures SessionLinks(db'.sessions, db.authorizations) && GrantLinks(db'.grants, db.devices)
  {
    SessionsFrame(db.sessions, db'.sessions, db.authorizations, db.authorizations);
    GrantsFrame(db.grants, db'.grants, db.devices, db.devices);
  }

  lemma AccountKeeps(db: DB, db': DB)
    requires GraphInv(db) && AccountSideStep(db, db')
    ensures GraphInv(db')
  {
    AccountLinks(db, db');
  }

  /** Rotation and compromise change one family, and not where it belongs. */
  lemma FamilyStepKeeps(db: DB, mode: Mode, effect: Effect, db': DB)
    requires GraphInv(db) && Makes(db, mode, effect, db') && (effect.Rotating? || effect.Compromising?)
    ensures GraphInv(db')
  {
    var f := effect.g.familyId;
    FamilyUpdateKeeps(db, f, db'.families[f]);
    assert db'.families == db.families[f := db'.families[f]];
  }

  lemma RowStepKeeps(db: DB, mode: Mode, effect: Effect, db': DB)
    requires GraphInv(db) && Makes(db, mode, effect, db') && (effect.Revoking? || effect.Registering?)
    ensures GraphInv(db')
  {
    if effect.Revoking? { RevokeKeeps(db, effect.revocation, effect.authorization, effect.key, effect.now); }
    else { RegisterKeeps(db, mode, effect.e, effect.state, effect.policy, effect.enroll, effect.x, effect.now); }
  }

  lemma RestKeeps(db: DB, mode: Mode, effect: Effect, db': DB)
    requires GraphInv(db) && Makes(db, mode, effect, db')
    requires effect.Activating? || effect.AccountSide? || effect.Pruning? || effect.Nothing?
    ensures GraphInv(db')
  {
    if effect.Activating? { VerifyKeeps(db, effect.principal, effect.now); }
    else if effect.AccountSide? { AccountKeeps(db, db'); }
  }

  lemma EffectKeeps(db: DB, mode: Mode, effect: Effect, db': DB)
    requires GraphInv(db) && Makes(db, mode, effect, db')
    ensures GraphInv(db')
  {
    if effect.Rotating? || effect.Compromising? { FamilyStepKeeps(db, mode, effect, db'); }
    else if effect.Revoking? || effect.Registering? { RowStepKeeps(db, mode, effect, db'); }
    else { RestKeeps(db, mode, effect, db'); }
  }

  lemma GraphStep(s: State, action: Action)
    requires GraphInv(s.db)
    ensures GraphInv(Apply(s, action).db)
  {
    ApplyMakes(s, action);
    EffectKeeps(s.db, s.mode, EffectOf(s, action), Apply(s, action).db);
  }
}
