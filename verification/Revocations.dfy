/** Device revocation: when it succeeds, every row it leaves, and its replay. */
module Revocations {
  import opened Schema
  import opened Identity
  import opened DeviceTx
  import opened Protocol
  import opened Effects
  import opened Ties
  import opened Graph
  import opened Theorems
  import opened Calls

  // ----- a device is revoked as a whole -----

  /** A device, its authorization and its families are revoked together or not at all. */
  ghost predicate Together(devices: map<Id, Device>, authorizations: map<Id, Authorization>,
                           families: map<Id, Family>) {
    && (forall a {:trigger authorizations[a]} :: a in authorizations && authorizations[a].device in devices ==>
          (authorizations[a].state.AuthRevoked? <==> devices[authorizations[a].device].state.DeviceRevoked?))
    && (forall f {:trigger families[f]} :: f in families && families[f].authorization in authorizations ==>
          (families[f].state.FamilyRevoked? <==> authorizations[families[f].authorization].state.AuthRevoked?))
  }

  lemma RevokingKeepsTogether(db: DB, r: Revocation, a: Id, key: RecordKey, now: Time, db': DB)
    requires GraphInv(db) && Together(db.devices, db.authorizations, db.families) && RevocationValid(db, r, a)
    requires db' == RevokeGraph(db, r, a, key, now)
    ensures Together(db'.devices, db'.authorizations, db'.families)
  {
  }

  lemma RegisteringKeepsTogether(db: DB, mode: Mode, effect: Effect, db': DB)
    requires GraphInv(db) && Together(db.devices, db.authorizations, db.families)
    requires Makes(db, mode, effect, db') && effect.Registering?
    ensures Together(db'.devices, db'.authorizations, db'.families)
  {
  }

  lemma ActivatingKeepsTogether(db: DB, p: Id, now: Time)
    requires Together(db.devices, db.authorizations, db.families)
    ensures Together(db.devices, ActivateProvisional(db.authorizations, p, now), db.families)
  {
  }

  lemma FamilyKeepsTogether(db: DB, mode: Mode, effect: Effect, db': DB)
    requires Together(db.devices, db.authorizations, db.families)
    requires Makes(db, mode, effect, db') && (effect.Rotating? || effect.Compromising?)
    ensures Together(db'.devices, db'.authorizations, db'.families)
  {
    assert db'.families == db.families[effect.g.familyId := db'.families[effect.g.familyId]];
  }

  lemma EffectKeepsTogether(db: DB, mode: Mode, effect: Effect, db': DB)
    requires Makes(db, mode, effect, db') && GraphInv(db) && Together(db.devices, db.authorizations, db.families)
    ensures Together(db'.devices, db'.authorizations, db'.families)
  {
    if effect.Revoking? {
      RevokingKeepsTogether(db, effect.revocation, effect.authorization, effect.key, effect.now, db');
    } else if effect.Registering? {
      RegisteringKeepsTogether(db, mode, effect, db');
    } else if effect.Activating? {
      ActivatingKeepsTogether(db, effect.principal, effect.now);
    } else if effect.Rotating? || effect.Compromising? {
      FamilyKeepsTogether(db, mode, effect, db');
    }
  }

  lemma {:induction false} TogetherRun(s: State, actions: seq<Action>)
    requires Good(s) && Together(s.db.devices, s.db.authorizations, s.db.families)
    ensures Together(Run(s, actions).db.devices, Run(s, actions).db.authorizations, Run(s, actions).db.families)
    decreases |actions|
  {
    if actions != [] {
      ApplyMakes(s, actions[0]);
      EffectKeepsTogether(s.db, s.mode, EffectOf(s, actions[0]), Apply(s, actions[0]).db);
      GoodStep(s, actions[0]);
      TogetherRun(Apply(s, actions[0]), actions[1..]);
    }
  }

  lemma RevokedTogether(s: State)
    requires Reachable(s)
    ensures Together(s.db.devices, s.db.authorizations, s.db.families)
  {
    var s0, actions :| Init(s0) && s == Run(s0, actions);
    InitGood(s0);
    TogetherRun(s0, actions);
  }

  // ----- when a revocation succeeds -----

  /** The caller's account is verified, its session live, and the device its own and not revoked yet. */
  predicate Revocable(db: DB, r: Revocation, at: Time) {
    && r.principal in db.accounts && db.accounts[r.principal].state.AccountActive?
    && r.session in db.sessions && db.sessions[r.session].principal == r.principal
    && db.sessions[r.session].state.SessionActive?
    && at < db.sessions[r.session].accessExpires && at < db.sessions[r.session].absoluteExpires
    && r.device in db.devices && db.devices[r.device].principal == r.principal
    && !db.devices[r.device].state.DeviceRevoked?
  }

  /** `a` is what the unique device column discovers. */
  predicate Discovers(db: DB, d: Id, a: Id) {
    d in db.devices ==> a in db.authorizations && db.authorizations[a].device == d
  }

  lemma ValidExactly(s: State, r: Revocation, a: Id)
    requires Reachable(s) && Discovers(s.db, r.device, a) && r.principal in s.db.accounts
    ensures RevocationValid(s.db, r, a) <==>
            && r.device in s.db.devices && s.db.devices[r.device].principal == r.principal
            && !s.db.devices[r.device].state.DeviceRevoked?
  {
    RevokedTogether(s);
    ReachableGood(s);
    if r.device in s.db.devices { assert HasFamily(s.db.families, a); }
  }

  // ----- the rows it leaves -----

  /** The device and its authorization are revoked, with one event and one record; sessions, families and their tokens
      are those of db'. */
  ghost predicate RevokedRows(db: DB, r: Revocation, a: Id, at: Time, key: RecordKey, db': DB) {
    && a in db.authorizations && r.device in db.devices
    && db' == db.(
         devices := db.devices[r.device := db.devices[r.device].(state := DeviceRevoked)],
         authorizations := db.authorizations[a := db.authorizations[a].(state := AuthRevoked,
                                                                        version := db.authorizations[a].version + 1)],
         events := db.events + [AuthorizationChanged(a, AuthRevoked, db.authorizations[a].version + 1)],
         records := db.records[key := RevocationRecord(r, at)],
         families := db'.families, refresh := db'.refresh, sessions := db'.sessions)
  }

  ghost predicate RevokedMembers(db: DB, a: Id, db': DB) {
    && FamiliesRevoked(db.families, a, db'.families) && TokensRevoked(db.refresh, db.families, a, db'.refresh)
    && SessionsRevoked(db.sessions, a, db'.sessions)
  }

  function RevocationRecord(r: Revocation, at: Time): Record {
    Record(RevokeRequest(r.device, r.session, r.proof), Completed, Some(Response(204, EmptyBody)), at, at + 90 * DAY)
  }

  ghost predicate FamiliesRevoked(x: map<Id, Family>, a: Id, y: map<Id, Family>) {
    && x.Keys == y.Keys
    && (forall f {:trigger y[f]} :: f in x ==>
          y[f] == if x[f].authorization == a then x[f].(state := FamilyRevoked, version := x[f].version + 1) else x[f])
  }

  ghost predicate TokensRevoked(x: map<Hash, Refresh>, families: map<Id, Family>, a: Id, y: map<Hash, Refresh>) {
    && x.Keys == y.Keys
    && (forall h {:trigger y[h]} :: h in x ==>
          y[h] == if x[h].state.Active? && x[h].family in families && families[x[h].family].authorization == a
                  then x[h].(state := Revoked) else x[h])
  }

  ghost predicate SessionsRevoked(x: map<Id, Session>, a: Id, y: map<Id, Session>) {
    && x.Keys == y.Keys
    && (forall s {:trigger y[s]} :: s in x ==>
          y[s] == if x[s].authorization == Some(a) && (x[s].state.SessionActive? || x[s].state.ReviewRequired?)
                  then x[s].(state := SessionRevoked, version := x[s].version + 1) else x[s])
  }

  lemma MembersAreRevoked(db: DB, a: Id, db': DB)
    requires db'.families == RevokeFamilies(db.families, a)
    requires db'.refresh == RevokeFamilyTokens(db.refresh, db.families, a)
    requires db'.sessions == RetireSessions(db.sessions, BoundSessions(db.sessions, a))
    ensures RevokedMembers(db, a, db')
  {
  }

  lemma RevocationIsRecorded(records: map<RecordKey, Record>, r: Revocation, at: Time, key: RecordKey)
    ensures Finish(records, key, RevokeRequest(r.device, r.session, r.proof), at, ROTATION_RETENTION,
                   Response(204, EmptyBody)) == records[key := RevocationRecord(r, at)]
  {
  }

  lemma GraphIsRevoked(db: DB, r: Revocation, a: Id, at: Time, key: RecordKey, db': DB)
    requires a in db.authorizations && r.device in db.devices && key == RecordKey(RevokeScope(r.principal), r.key)
    requires db' == RevokeGraph(db, r, a, key, at)
    ensures RevokedRows(db, r, a, at, key, db')
  {
    RevocationIsRecorded(db.records, r, at, key);
  }

  /** Under a fresh key a revocation succeeds exactly for a revocable device; then it revokes the whole graph and
      nothing else, and otherwise it answers authentication failed and changes nothing. */
  lemma RevokesExactly(s: State, r: Revocation, a: Id, at: Time, key: RecordKey, tx: Tx)
    requires Reachable(s) && Discovers(s.db, r.device, a) && tx == RevokeTx(s.db, r, a, at)
    requires key == RecordKey(RevokeScope(r.principal), r.key) && key !in s.db.records
    ensures tx.reply == if Revocable(s.db, r, at) then Done else AuthenticationFailed
    ensures Revocable(s.db, r, at) ==> RevokedRows(s.db, r, a, at, key, tx.db) && RevokedMembers(s.db, a, tx.db)
    ensures !Revocable(s.db, r, at) ==> tx.db == s.db
  {
    if r.principal in s.db.accounts { ValidExactly(s, r, a); }
    if Revocable(s.db, r, at) {
      GraphIsRevoked(s.db, r, a, at, key, tx.db);
      MembersAreRevoked(s.db, a, tx.db);
    }
  }

  // ----- the replay -----

  /** For ninety days after it, in any continuation without pruning, the same request under the same key is answered as
      done, any other with a conflict, and neither changes anything. */
  lemma RevocationReplays(s: State, r: Revocation, at: Time, actions: seq<Action>, last: State, again: Revocation,
                          b: Id,
                          now: Time)
    requires RecordKey(RevokeScope(r.principal), r.key) in s.db.records
    requires s.db.records[RecordKey(RevokeScope(r.principal), r.key)] == RevocationRecord(r, at)
    requires NoPruning(actions) && last == Run(s, actions) && now < at + 90 * DAY
    requires again.principal == r.principal && again.key == r.key
    ensures RevokeTx(last.db, again, b, now) == Tx(last.db, if again == r then Done else Conflicted)
  {
    RecordStays(s, actions, RecordKey(RevokeScope(r.principal), r.key));
  }
}
