/** The invariant of the device tables, kept by every effect. */
module Safety {
  import opened Schema
  import opened Identity
  import opened DeviceTx
  import opened Protocol
  import opened Effects
  import opened Chains
  import opened History
  import opened Records

  /** Access before idle before absolute expiry; the absolute expiry is fixed at registration; no access token
      outlives a running trial. */
  predicate Lifetimes(row: Family, authorizations: map<Id, Authorization>) {
    && row.accessExpires < row.idleExpires < row.absoluteExpires
    && row.absoluteExpires == row.createdAt + DEVICE_ABSOLUTE_TTL
    && row.authorization in authorizations
    && var a := authorizations[row.authorization];
       (a.state.Provisional? && a.provisionalUntil.Some? ==> row.accessExpires <= a.provisionalUntil.value)
  }

  ghost predicate LifetimeInv(families: map<Id, Family>, authorizations: map<Id, Authorization>) {
    forall f {:trigger families[f]} :: f in families ==> Lifetimes(families[f], authorizations)
  }

  ghost predicate DeviceInv(db: DB, pruned: Time) {
    && ChainInv(db.families, db.refresh, db.events)
    && LifetimeInv(db.families, db.authorizations)
    && RecordInv(db.records, db.families, db.refresh)
    && SpentInv(db.records, db.families, db.refresh, pruned)
  }

  lemma RotationOrders(g: Authority, now: Time, mode: Mode)
    requires AuthorityValid(mode, g, now) && RotatedTimes(g, now).Some?
    ensures var t := RotatedTimes(g, now).value;
            && t.access < t.idle < g.family.absoluteExpires
            && (g.authorization.provisionalUntil.Some? ==> t.access <= g.authorization.provisionalUntil.value)
  {
  }

  /** When access to a live family may last: ten minutes, cut at the trial's end. */
  function AccessEnd(g: Authority, now: Time): Time {
    if g.authorization.provisionalUntil.Some? then Min(now + DEVICE_ACCESS_TTL, g.authorization.provisionalUntil.value)
    else now + DEVICE_ACCESS_TTL
  }

  /** A valid authority is refused a rotation exactly when its access token would reach the last nanosecond of the
      family, that is in the last ten minutes of its life; otherwise access gets its full time and idle as much as
      fits strictly inside the absolute expiry. */
  lemma RotationTimesExactly(g: Authority, now: Time, mode: Mode)
    requires AuthorityValid(mode, g, now)
    ensures RotatedTimes(g, now).None? <==> g.family.absoluteExpires - 1 <= AccessEnd(g, now)
    ensures RotatedTimes(g, now).None? ==> g.family.absoluteExpires <= now + DEVICE_ACCESS_TTL + 1
    ensures RotatedTimes(g, now).Some? ==>
              RotatedTimes(g, now).value ==
              DeviceTimes(AccessEnd(g, now), Min(now + DEVICE_IDLE_TTL, g.family.absoluteExpires - 1))
  {
  }

  lemma NoOtherRotation(db: DB, pruned: Time, h: Hash)
    requires DeviceInv(db, pruned) && h in db.refresh && !db.refresh[h].state.Used?
    ensures forall k {:trigger Rotates(db.records[k], h)} :: k in db.records ==> !Rotates(db.records[k], h)
  {
    forall k | k in db.records && Rotates(db.records[k], h) ensures false {
      RotatesMeansUsed(db.records, db.families, db.refresh, db.events, k, h);
    }
  }

  lemma RotationKeepsChains(db: DB, db': DB, mode: Mode, g: Authority, times: DeviceTimes, access: Hash, refresh: Hash,
                            key: RecordKey, request: Request, now: Time)
    requires ChainInv(db.families, db.refresh, db.events) && LifetimeInv(db.families, db.authorizations)
    requires Locked(db, mode, g, key, request, now) && g.state.Active? && RotatedTimes(g, now) == Some(times) &&
             refresh !in db.refresh
    requires db' == Rotate(db, g, times, access, refresh, key, request, now)
    ensures ChainInv(db'.families, db'.refresh, db'.events) && LifetimeInv(db'.families, db'.authorizations)
  {
    RotationOrders(g, now, mode);
    RotationExtends(db.families, db.refresh, db.events, g.familyId, db'.families[g.familyId], g.token, refresh);
  }

  lemma RotationKeeps(db: DB, mode: Mode, pruned: Time, g: Authority, times: DeviceTimes, access: Hash, refresh: Hash,
                      key: RecordKey, request: Request, now: Time)
    requires DeviceInv(db, pruned) && Locked(db, mode, g, key, request, now) && g.state.Active? &&
             RotatedTimes(g, now) == Some(times)
    requires access != 0 && refresh != 0 && refresh !in db.refresh && g.family.createdAt <= now
    ensures DeviceInv(Rotate(db, g, times, access, refresh, key, request, now), pruned)
  {
    var db' := Rotate(db, g, times, access, refresh, key, request, now);
    RotationKeepsChains(db, db', mode, g, times, access, refresh, key, request, now);
    RotationOrders(g, now, mode);
    RotationForward(db, g, times, access, refresh, key, request, now);
    NoOtherRotation(db, pruned, g.token);
    RecordAdded(db.records, db.families, db.refresh, db'.families, db'.refresh, key, db'.records[key]);
    SpentAdded(db.records, db.families, db.refresh, pruned, db'.families, db'.refresh, key, db'.records[key]);
  }

  lemma CompromiseKeeps(db: DB, mode: Mode, pruned: Time, g: Authority, key: RecordKey, request: Request, now: Time)
    requires DeviceInv(db, pruned) && Locked(db, mode, g, key, request, now)
    ensures DeviceInv(Compromise(db, g, key, request, now), pruned)
  {
    var db' := Compromise(db, g, key, request, now);
    CompromiseForward(db, g, key, request, now);
    CompromiseRetires(db.families, db.refresh, db.events, g.familyId, db'.families[g.familyId],
                      db'.events[|db.events|]);
    RecordAdded(db.records, db.families, db.refresh, db'.families, db'.refresh, key, db'.records[key]);
    SpentAdded(db.records, db.families, db.refresh, pruned, db'.families, db'.refresh, key, db'.records[key]);
  }

  lemma RevocationKeepsChains(db: DB, db': DB, r: Revocation, a: Id, key: RecordKey, now: Time)
    requires ChainInv(db.families, db.refresh, db.events) && LifetimeInv(db.families, db.authorizations)
    requires RevocationValid(db, r, a) && db' == RevokeGraph(db, r, a, key, now)
    ensures ChainInv(db'.families, db'.refresh, db'.events) && LifetimeInv(db'.families, db'.authorizations)
  {
    RevocationRetires(db.families, db.refresh, db.events, a);
    OtherEvent(db'.families, db'.refresh, db.events, db'.events[|db.events|]);
  }

  lemma RevocationKeepsRecords(db: DB, db': DB, pruned: Time, r: Revocation, a: Id, key: RecordKey, now: Time)
    requires RecordInv(db.records, db.families, db.refresh) && SpentInv(db.records, db.families, db.refresh, pruned)
    requires RevocationValid(db, r, a) && db' == RevokeGraph(db, r, a, key, now) &&
             key == RecordKey(RevokeScope(r.principal), r.key) && key !in db.records
    ensures RecordInv(db'.records, db'.families, db'.refresh) &&
            SpentInv(db'.records, db'.families, db'.refresh, pruned)
  {
    RevocationForward(db, r, a, key, now);
    RecordAdded(db.records, db.families, db.refresh, db'.families, db'.refresh, key, db'.records[key]);
    SpentAdded(db.records, db.families, db.refresh, pruned, db'.families, db'.refresh, key, db'.records[key]);
  }

  lemma RevocationKeeps(db: DB, pruned: Time, r: Revocation, a: Id, key: RecordKey, now: Time)
    requires DeviceInv(db, pruned) && RevocationValid(db, r, a) && key == RecordKey(RevokeScope(r.principal), r.key) &&
             key !in db.records
    ensures DeviceInv(RevokeGraph(db, r, a, key, now), pruned)
  {
    var db' := RevokeGraph(db, r, a, key, now);
    RevocationKeepsChains(db, db', r, a, key, now);
    RevocationKeepsRecords(db, db', pruned, r, a, key, now);
  }

  lemma RegistrationKeepsChains(db: DB, db': DB, e: Enrollment, state: AuthState, policy: Policy, c: Enroll, x: Fresh,
                                now: Time)
    requires ChainInv(db.families, db.refresh, db.events) && LifetimeInv(db.families, db.authorizations)
    requires ValidateEnrollment(db, c.grant, now) == Some(e) && PolicyFor(e, now) == Some((state, policy)) &&
             InsertsAccepted(db, e, state, c, x)
    requires db' == RegisterGraph(db, e, state, policy, c, x, now)
    ensures ChainInv(db'.families, db'.refresh, db'.events) && LifetimeInv(db'.families, db'.authorizations)
  {
    RegistrationRoots(db.families, db.refresh, db.events, x.family, db'.families[x.family], x.refresh);
    OtherEvent(db'.families, db'.refresh, db.events, db'.events[|db.events|]);
  }

  lemma RegistrationKeepsRecords(db: DB, db': DB, pruned: Time, e: Enrollment, state: AuthState, policy: Policy,
                                 c: Enroll, x: Fresh, now: Time)
    requires RecordInv(db.records, db.families, db.refresh) && SpentInv(db.records, db.families, db.refresh, pruned)
    requires ValidateEnrollment(db, c.grant, now) == Some(e) && PolicyFor(e, now) == Some((state, policy)) &&
             InsertsAccepted(db, e, state, c, x)
    requires db' == RegisterGraph(db, e, state, policy, c, x, now) && RecordKey(RegisterScope, c.key) !in db.records
    ensures RecordInv(db'.records, db'.families, db'.refresh) &&
            SpentInv(db'.records, db'.families, db'.refresh, pruned)
  {
    var key := RecordKey(RegisterScope, c.key);
    RegistrationForward(db, e, state, policy, c, x, now);
    RecordAdded(db.records, db.families, db.refresh, db'.families, db'.refresh, key, db'.records[key]);
    SpentAdded(db.records, db.families, db.refresh, pruned, db'.families, db'.refresh, key, db'.records[key]);
  }

  lemma RegistrationKeeps(db: DB, pruned: Time, e: Enrollment, state: AuthState, policy: Policy, c: Enroll, x: Fresh,
                          now: Time)
    requires DeviceInv(db, pruned) && ValidateEnrollment(db, c.grant, now) == Some(e) &&
             PolicyFor(e, now) == Some((state, policy))
    requires InsertsAccepted(db, e, state, c, x) && RecordKey(RegisterScope, c.key) !in db.records
    ensures DeviceInv(RegisterGraph(db, e, state, policy, c, x, now), pruned)
  {
    var db' := RegisterGraph(db, e, state, policy, c, x, now);
    RegistrationKeepsChains(db, db', e, state, policy, c, x, now);
    RegistrationKeepsRecords(db, db', pruned, e, state, policy, c, x, now);
  }

  lemma ActivationKeeps(db: DB, pruned: Time, p: Id, now: Time)
    requires DeviceInv(db, pruned)
    ensures DeviceInv(VerifyEmail(db, p, now), pruned)
  {
  }

  lemma PruningKeeps(db: DB, pruned: Time, cutoff: Time)
    requires DeviceInv(db, pruned)
    ensures DeviceInv(db.(records := PruneRecords(db.records, cutoff)), if pruned < cutoff then cutoff else pruned)
  {
    forall k | k in db.records && db.records[k].request.RotateRequest? ensures k.scope.RotateScope? {
      assert WellFormed(k, db.records[k]);
    }
    RecordsPruned(db.records, db.families, db.refresh, cutoff);
    SpentPruned(db.records, db.families, db.refresh, db.events, pruned, cutoff);
  }
}
