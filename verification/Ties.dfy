/** Access digests are never shared, and a rotation is recorded under the owner of its family. */
module Ties {
  import opened Schema
  import opened Identity
  import opened DeviceTx
  import opened Protocol
  import opened Effects
  import opened History
  import opened Records
  import opened Safety

  ghost predicate AccessUnique(families: map<Id, Family>) {
    forall f, g {:trigger families[f], families[g]} ::
      f in families && g in families && families[f].accessHash == families[g].accessHash ==> f == g
  }

  /** The scope of a rotation record is the principal that owns the family. */
  predicate Scoped(k: RecordKey, r: Record, families: map<Id, Family>, authorizations: map<Id, Authorization>) {
    r.request.RotateRequest? && r.response.Some? && r.response.value.body.TokenBody? ==>
      var t := r.response.value.body.tokens;
      && t.family in families && families[t.family].authorization in authorizations
      && k.scope == RotateScope(authorizations[families[t.family].authorization].principal)
  }

  ghost predicate TieInv(db: DB) {
    && AccessUnique(db.families)
    && (forall k {:trigger db.records[k]} ::
          k in db.records ==> Scoped(k, db.records[k], db.families, db.authorizations))
  }

  lemma AccessReplaced(families: map<Id, Family>, f: Id, row: Family)
    requires AccessUnique(families) &&
             (AccessHashFree(families, row.accessHash) || (f in families && row.accessHash == families[f].accessHash))
    ensures AccessUnique(families[f := row])
  {
  }

  lemma ScopedFrame(k: RecordKey, r: Record, db: DB, db': DB)
    requires Scoped(k, r, db.families, db.authorizations) && Later(db, db')
    ensures Scoped(k, r, db'.families, db'.authorizations)
  {
  }

  lemma EffectKeepsAccess(db: DB, mode: Mode, effect: Effect, db': DB)
    requires AccessUnique(db.families) && Makes(db, mode, effect, db')
    ensures AccessUnique(db'.families)
  {
    match effect
    case Rotating(g, times, access, refresh, key, request, now) =>
      AccessReplaced(db.families, g.familyId, db'.families[g.familyId]);
    case Compromising(g, key, request, now) => AccessReplaced(db.families, g.familyId, db'.families[g.familyId]);
    case Registering(c, e, state, policy, x, now) => AccessReplaced(db.families, x.family, db'.families[x.family]);
    case Revoking(r, a, key, now) =>
      assert forall f {:trigger db.families[f]} {:trigger db'.families[f]} :: f in db.families <==> f in db'.families;
      assert forall f {:trigger db'.families[f]} ::
               f in db'.families ==> db'.families[f].accessHash == db.families[f].accessHash;
    case _ =>
  }

  lemma NewRecordsScoped(db: DB, mode: Mode, effect: Effect, db': DB, k: RecordKey)
    requires Makes(db, mode, effect, db') && k in db'.records
    ensures (k in db.records && db'.records[k] == db.records[k]) ||
            Scoped(k, db'.records[k], db'.families, db'.authorizations)
  {
  }

  lemma EffectKeeps(db: DB, mode: Mode, effect: Effect, db': DB)
    requires TieInv(db) && Makes(db, mode, effect, db')
    ensures TieInv(db')
  {
    EffectKeepsAccess(db, mode, effect, db');
    EffectMovesForward(db, mode, effect, db');
    forall k | k in db'.records ensures Scoped(k, db'.records[k], db'.families, db'.authorizations) {
      NewRecordsScoped(db, mode, effect, db', k);
      if k in db.records && db'.records[k] == db.records[k] { ScopedFrame(k, db.records[k], db, db'); }
    }
  }

  lemma TieStep(s: State, action: Action)
    requires TieInv(s.db)
    ensures TieInv(Apply(s, action).db)
  {
    ApplyMakes(s, action);
    EffectKeeps(s.db, s.mode, EffectOf(s, action), Apply(s, action).db);
  }

  // ----- identifiers are never nil -----

  ghost predicate FamilyIds(families: map<Id, Family>) { forall f {:trigger families[f]} :: f in families ==> f != 0 }

  ghost predicate AuthorizationIds(authorizations: map<Id, Authorization>) {
    forall a {:trigger authorizations[a]} :: a in authorizations ==> a != 0
  }

  ghost predicate DeviceIds(devices: map<Id, Device>) {
    forall d {:trigger devices[d]} :: d in devices ==> d != 0 && devices[d].keyVersion > 0
  }

  ghost predicate IdInv(db: DB) {
    FamilyIds(db.families) && AuthorizationIds(db.authorizations) && DeviceIds(db.devices)
  }

  lemma RegisteringKeepsIds(db: DB, e: Enrollment, state: AuthState, policy: Policy, c: Enroll, x: Fresh, now: Time)
    requires IdInv(db) && ValidateEnrollment(db, c.grant, now) == Some(e) && InsertsAccepted(db, e, state, c, x)
    ensures IdInv(RegisterGraph(db, e, state, policy, c, x, now))
  {
  }

  lemma ActivatingKeepsIds(x: map<Id, Authorization>, p: Id, now: Time)
    requires AuthorizationIds(x)
    ensures AuthorizationIds(ActivateProvisional(x, p, now))
  {
  }

  lemma EffectKeepsIds(db: DB, mode: Mode, effect: Effect, db': DB)
    requires IdInv(db) && Makes(db, mode, effect, db')
    ensures IdInv(db')
  {
    match effect
    case Registering(c, e, state, policy, x, now) => RegisteringKeepsIds(db, e, state, policy, c, x, now);
    case Activating(p, now) => ActivatingKeepsIds(db.authorizations, p, now);
    case _ =>
  }

  lemma IdStep(s: State, action: Action)
    requires IdInv(s.db)
    ensures IdInv(Apply(s, action).db)
  {
    ApplyMakes(s, action);
    EffectKeepsIds(s.db, s.mode, EffectOf(s, action), Apply(s, action).db);
  }
}
