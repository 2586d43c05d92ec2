/** What registration leaves behind, and when a registered device authorizes. */
module Devices {
  import opened Schema
  import opened Identity
  import opened DeviceTx
  import opened Protocol
  import opened Effects
  import opened Chains
  import opened History
  import opened Safety
  import opened Attempts
  import opened Steps
  import opened Ties
  import opened Trial
  import opened Graph
  import opened Reads
  import opened Theorems
  import opened Possession

  // ----- one whole graph per device -----

  /** The rows that belong to device d. */
  datatype Parts = Parts(grant: Hash, authorization: Id, family: Id, session: Id, chain: seq<Hash>)

  ghost predicate Belongs(db: DB, d: Id, p: Parts) {
    && p.grant in db.grants && db.grants[p.grant].state.Consumed? && db.grants[p.grant].consumedDevice == Some(d)
    && p.authorization in db.authorizations && db.authorizations[p.authorization].device == d &&
       p.authorization in db.policies
    && p.family in db.families && db.families[p.family].authorization == p.authorization
    && p.session in db.sessions && db.sessions[p.session].authorization == Some(p.authorization)
    && IsChain(p.chain, p.family, db.families[p.family].state.FamilyActive?, db.refresh)
  }

  /** Every reachable device has a consumed grant naming it, an authorization with a policy, a family grown from a
      root token, and a bound session. */
  lemma DeviceIsWhole(s: State, d: Id) returns (p: Parts)
    requires Reachable(s) && d in s.db.devices
    ensures Belongs(s.db, d, p)
  {
    ReachableGood(s);
    assert Granted(s.db.grants, d) && HasAuthorization(s.db.authorizations, d);
    var g :| g in s.db.grants && s.db.grants[g].consumedDevice == Some(d);
    var a :| a in s.db.authorizations && s.db.authorizations[a].device == d;
    assert HasFamily(s.db.families, a) && HasSession(s.db.sessions, a);
    var f :| f in s.db.families && s.db.families[f].authorization == a;
    var sid :| sid in s.db.sessions && s.db.sessions[sid].authorization == Some(a);
    assert FamilyChain(f, s.db.families[f], s.db.refresh, s.db.events);
    var c :| IsChain(c, f, s.db.families[f].state.FamilyActive?, s.db.refresh) &&
             VersionCounts(s.db.families[f], |c|, Compromises(s.db.events, f));
    p := Parts(g, a, f, sid, c);
  }

  /** ... and exactly one of each: no row of one device's graph belongs to another graph or has a twin. */
  lemma DevicePartsAreUnique(s: State, d: Id, e: Id, p: Parts, q: Parts)
    requires Reachable(s) && Belongs(s.db, d, p) && Belongs(s.db, e, q)
    ensures d == e <==> p.grant == q.grant
    ensures d == e <==> p.authorization == q.authorization
    ensures d == e <==> p.family == q.family
    ensures d == e <==> p.session == q.session
  {
    ReachableGood(s);
  }

  /** A consumed grant names its device for ever and never enrols again. */
  lemma GrantIsSingleUse(s: State, g: Hash, actions: seq<Action>, now: Time)
    requires g in s.db.grants && s.db.grants[g].state.Consumed?
    ensures var s' := Run(s, actions);
            g in s'.db.grants && s'.db.grants[g] == s.db.grants[g] && ValidateEnrollment(s'.db, g, now).None?
  {
    RunMovesForward(s, actions);
  }

  // ----- bundle authorization -----

  /** The snapshot stored at registration is accepted whenever the authorization's own marker is, during a trial and
      after activation. */
  lemma SnapshotAccepted(s: State, a: Id, now: Time)
    requires Reachable(s) && a in s.db.authorizations && MarkerValid(s.mode, s.db.authorizations[a], now)
    ensures a in s.db.policies && PolicyAccepted(s.db.authorizations[a], s.db.policies[a], now)
  {
    ReachableGood(s);
    assert PolicyFits(s.db.authorizations[a], s.db.policies[a]);
  }

  /** An access token authorizes exactly while it is current and unexpired on an active family and device whose
      authorization and account stand: all other checks hold of every reachable state. */
  lemma AuthorizesExactly(s: State, f: Id, access: Hash, now: Time)
    requires Reachable(s) && f in s.db.families
    ensures var row := s.db.families[f];
            && Rooted(s.db, f)
            && (Authorizes(s.db, s.mode, f, access, now) <==>
                row.accessHash == access && now < row.accessExpires && FamilyStands(s.db, s.mode, f, now))
  {
    var row := s.db.families[f];
    FamiliesAreRooted(s, f);
    assert s.db.devices[s.db.authorizations[row.authorization].device].keyVersion > 0 by { ReachableGood(s); }
    MarkerExactly(s.mode, s.db.accounts, s.db.authorizations[row.authorization], s.db, now);
    if MarkerValid(s.mode, s.db.authorizations[row.authorization], now) { SnapshotAccepted(s, row.authorization, now); }
  }

  /** A device on a running trial is authorized for the snapshot of its trial, and one that was activated, or enrolled
      by a verified account, for the standard policy. */
  lemma BundlePolicy(s: State, f: Id, access: Hash, now: Time)
    requires Reachable(s) && f in s.db.families && Authorizes(s.db, s.mode, f, access, now)
    ensures var a := s.db.families[f].authorization; var row := s.db.authorizations[a];
            && row.principal in s.db.accounts
            && EffectivePolicy(row, s.db.policies[a]) ==
               if s.db.authorizations[a].state.Provisional?
               then TrialPolicy(CutOff(s.db.accounts[row.principal]) / SECOND, "1") else StandardPolicy
  {
    ReachableGood(s);
    assert PolicyFits(s.db.authorizations[s.db.families[f].authorization],
                      s.db.policies[s.db.families[f].authorization]);
  }
}
