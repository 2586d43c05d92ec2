/** The reading parts of device transactions, statement by statement: enrollment validation and bundle authorization. */
module Reads {
  import opened Schema
  import opened Identity
  import opened DeviceTx
  import opened Rows

  /** The session identifiers of one principal in ascending order, as LockPrincipalAccountSessions returns them. */
  ghost predicate ListsSessions(ids: seq<Id>, sessions: map<Id, Session>, p: Id) {
    AscendingKeys(ids) && forall s {:trigger s in ids} {:trigger sessions[s]} ::
      s in ids <==> s in sessions && sessions[s].principal == p
  }

  method SelectSessions(sessions: map<Id, Session>, p: Id) returns (ids: seq<Id>)
    ensures ListsSessions(ids, sessions, p)
  {
    ids := OrderKeys(set s | s in sessions && sessions[s].principal == p);
  }

  // ValidateDeviceEnrollment, the loop that looks for the bound session among the locked ones
  method FindBound(ids: seq<Id>, sessions: map<Id, Session>, p: Id, sid: Id) returns (found: bool)
    requires ListsSessions(ids, sessions, p)
    ensures found <==> sid in sessions && sessions[sid].principal == p
  {
    found := false;
    var i := 0;
    while i < |ids|
      invariant 0 <= i <= |ids| && (found <==> sid in ids[..i])
    {
      assert ids[..i + 1] == ids[..i] + [ids[i]];
      if ids[i] == sid { found := true; }
      i := i + 1;
    }
    assert ids[..i] == ids;
  }

  // ValidateDeviceEnrollment, the loop that refuses a trial principal that already has a device
  method NoneBound(ids: seq<Id>, sessions: map<Id, Session>, p: Id) returns (none: bool)
    requires ListsSessions(ids, sessions, p)
    ensures none <==> forall s :: s in sessions && sessions[s].principal == p ==> sessions[s].authorization.None?
  {
    var i := 0;
    while i < |ids|
      invariant 0 <= i <= |ids| && forall s :: s in ids[..i] ==> s in sessions && sessions[s].authorization.None?
    {
      assert ids[i] in ids && ids[..i + 1] == ids[..i] + [ids[i]];
      if sessions[ids[i]].authorization.Some? { return false; }
      i := i + 1;
    }
    assert ids[..i] == ids;
    none := true;
  }

  // ValidateDeviceEnrollment
  method ValidateDeviceEnrollment(db: DB, hash: Hash, now: Time) returns (e: Option<Enrollment>)
    ensures e == ValidateEnrollment(db, hash, now)
  {
    if hash !in db.grants || !db.grants[hash].state.Unused? || db.grants[hash].expiresAt <= now { return None; }
    var grant := db.grants[hash];
    var ids := SelectSessions(db.sessions, grant.principal);
    var found := FindBound(ids, db.sessions, grant.principal, grant.session);
    if grant.principal !in db.accounts || !found { return None; }
    var account := db.accounts[grant.principal];
    var bound := db.sessions[grant.session];
    if !bound.state.SessionActive? || bound.accessExpires <= now || bound.absoluteExpires <= now ||
       bound.authorization.Some? {
      return None;
    }
    match grant.marker {
      case Standard =>
        if !account.state.AccountActive? || grant.provisionalUntil.Some? { return None; }
        return Some(Enrollment(grant.principal, grant.session, Standard, None));
      case TrialRestricted =>
        var deadline := GraceDeadline(account, now);
        if deadline.None? || grant.provisionalUntil != deadline || grant.expiresAt > deadline.value ||
           bound.absoluteExpires != deadline.value ||
           bound.accessExpires > deadline.value { return None; }
        var none := NoneBound(ids, db.sessions, grant.principal);
        if !none { return None; }
        return Some(Enrollment(grant.principal, grant.session, TrialRestricted, deadline));
    }
  }

  /** What a bundle request is authorized for: the effective policy is the standard one once the authorization is
      active. */
  datatype BundleAuthority = BundleAuthority(authorization: Id, principal: Id, device: Id, hpkeKey: Hash,
                                             keyVersion: nat, policy: Policy)

  // effectiveDevicePolicy
  function EffectivePolicy(row: Authorization, policy: Policy): Policy {
    if row.state.Authorized? then StandardPolicy else policy
  }

  // authorizeBundleInDBTX: discover by access token, lock in order, read the clock, list again, validate
  method AuthorizeBundle(db: DB, mode: Mode, access: Hash, now: Time)
    returns (authority: Option<BundleAuthority>, ghost f: Id)
    requires forall f, g {:trigger db.families[f], db.families[g]} ::
               f in db.families && g in db.families && db.families[f].accessHash == db.families[g].accessHash ==> f == g
    requires forall f {:trigger db.families[f]} :: f in db.families ==>
               db.families[f].authorization in db.authorizations &&
               db.authorizations[db.families[f].authorization].device in db.devices
    ensures authority.Some? <==> access != 0 && exists g :: Authorizes(db, mode, g, access, now)
    ensures authority.Some? ==>
              && Authorizes(db, mode, f, access, now)
              && var a := db.families[f].authorization; var row := db.authorizations[a];
                 var device := db.devices[row.device];
                 authority.value == BundleAuthority(a, row.principal, row.device, device.hpkeKey, device.keyVersion,
                                                    if row.state.Authorized? then StandardPolicy else db.policies[a])
  {
    f := 0;
    if access == 0 { return None, 0; }
    var found := set g | g in db.families && db.families[g].accessHash == access;
    if found == {} {
      assert forall g :: g in db.families && db.families[g].accessHash == access ==> g in found;
      return None, 0;
    }
    var family :| family in found;
    f := family;
    var rows := SelectRows(db.refresh, family);
    var row := db.families[family];
    var a := row.authorization;
    var authorization := db.authorizations[a];
    var device := db.devices[authorization.device];
    var standing := AccountAuthority(db, authorization.principal, now);
    var again := SelectRows(db.refresh, family);
    SameRowsExactly(rows, again, db.refresh, db.refresh, {family});
    var same := SameRefreshSet(rows, again);
    OnlyThisFamily(db, mode, family, access, now);
    if a !in db.policies || !same || family == 0 || a == 0 || authorization.principal == 0 ||
       authorization.device == 0 || !standing ||
       !row.state.FamilyActive? || row.accessExpires <= now || row.idleExpires <= now || row.absoluteExpires <= now ||
       device.principal != authorization.principal || !device.state.DeviceActive? || device.keyVersion == 0 ||
       !MarkerValid(mode, authorization, now) || !PolicyAccepted(authorization, db.policies[a], now)
    {
      return None, family;
    }
    authority := Some(BundleAuthority(a, authorization.principal, authorization.device, device.hpkeKey,
                                      device.keyVersion,
                                      EffectivePolicy(authorization, db.policies[a])));
  }

  /** The unique index on access tokens leaves one family to consider. */
  lemma OnlyThisFamily(db: DB, mode: Mode, f: Id, access: Hash, now: Time)
    requires f in db.families && db.families[f].accessHash == access
    requires forall g {:trigger db.families[g]} :: g in db.families && db.families[g].accessHash == access ==> g == f
    ensures (exists g :: Authorizes(db, mode, g, access, now)) <==> Authorizes(db, mode, f, access, now)
  {
  }
}
