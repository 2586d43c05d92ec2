/** Registration: when it succeeds, every row it leaves, what the new device may then do, and its replay. */
module Registration {
  import opened Schema
  import opened Identity
  import opened DeviceTx
  import opened Protocol
  import opened Effects
  import opened Trial
  import opened Deadlines
  import opened Theorems
  import opened Possession
  import opened Devices
  import opened Calls

  // ----- when a registration succeeds -----

  /** The grant is unused and unexpired and names what the preflight found; its session is live and unbound; the account
      is verified, or on a trial that began on a whole second and has no device yet. */
  ghost predicate Enrollable(db: DB, mode: Mode, hash: Hash, e: Enrollment, at: Time) {
    && hash in db.grants && db.grants[hash].session in db.sessions && db.grants[hash].principal in db.accounts
    && var grant := db.grants[hash]; var session := db.sessions[grant.session];
       var account := db.accounts[grant.principal];
       && grant.state.Unused? && at < grant.expiresAt
       && e == Enrollment(grant.principal, grant.session, grant.marker, grant.provisionalUntil)
       && session.state.SessionActive? && at < session.accessExpires && at < session.absoluteExpires
       && session.authorization.None?
       && (grant.marker.Standard? ==> account.state.AccountActive?)
       && (grant.marker.TrialRestricted? ==>
             && mode.EmailGrace? && account.state.PendingEmail? && account.createdAt <= at
             && account.createdAt % SECOND == 0
             && forall s :: s in db.sessions && db.sessions[s].principal == grant.principal ==>
                              db.sessions[s].authorization.None?)
  }

  /** The drawn identifiers and digests are new, no device of the principal has one of the keys, and a trial is the only
      one of its principal. */
  ghost predicate Unclashing(db: DB, e: Enrollment, c: Enroll, x: Fresh) {
    && x.device != 0 && x.authorization != 0 && x.family != 0 && x.access != 0 && x.refresh != 0
    && x.device !in db.devices && x.authorization !in db.authorizations && x.authorization !in db.policies
    && x.family !in db.families && x.refresh !in db.refresh
    && (forall f :: f in db.families ==> db.families[f].accessHash != x.access)
    && (forall d :: d in db.devices && db.devices[d].principal == e.principal ==>
          db.devices[d].signingKey != c.signingKey && db.devices[d].hpkeKey != c.hpkeKey)
    && (e.marker.TrialRestricted? ==> forall a ::
          a in db.authorizations && db.authorizations[a].principal == e.principal ==>
          !db.authorizations[a].state.Provisional?)
  }

  lemma EnrollableExactly(s: State, hash: Hash, e: Enrollment, at: Time)
    requires Reachable(s)
    ensures Enrollable(s.db, s.mode, hash, e, at) <==>
            && ValidateEnrollment(s.db, hash, at) == Some(e) && EnrollmentMode(s.mode, e, at) && PolicyFor(e, at).Some?
  {
    if hash in s.db.grants {
      GrantStanding(s, hash);
      WholeSeconds(s.db.accounts[s.db.grants[hash].principal].createdAt);
    }
  }

  lemma UnclashingExactly(s: State, e: Enrollment, c: Enroll, x: Fresh, at: Time)
    requires Reachable(s) && PolicyFor(e, at).Some?
    ensures Unclashing(s.db, e, c, x) <==> InsertsAccepted(s.db, e, PolicyFor(e, at).value.0, c, x)
  {
    forall a | a in s.db.authorizations ensures s.db.authorizations[a].device in s.db.devices { ReachableGood(s); }
  }

  // ----- the rows it leaves -----

  /** The end of the first access token: ten minutes, cut at the end of a trial. */
  function FirstAccessEnd(e: Enrollment, at: Time): Time {
    if e.provisionalUntil.Some? && e.provisionalUntil.value < at + 10 * MINUTE then e.provisionalUntil.value
    else at + 10 * MINUTE
  }

  function FirstTokens(e: Enrollment, x: Fresh, at: Time): DeviceTokens {
    DeviceTokens(x.device, x.authorization, x.family, x.access, x.refresh, FirstAccessEnd(e, at), at + 30 * DAY,
                 at + 90 * DAY)
  }

  function RegistrationRecord(c: Enroll, e: Enrollment, x: Fresh, at: Time): Record {
    Record(RegisterRequest(c.grant, c.challenge, c.nonce, c.signingKey, c.hpkeKey, c.displayName, c.signature),
           Completed, Some(Response(201, TokenBody(FirstTokens(e, x, at)))), at, at + DAY)
  }

  /** The device and its grant, authorization, policy, session, family, root token, security record, event and record.
      */
  ghost predicate Enrolled(db: DB, e: Enrollment, c: Enroll, x: Fresh, at: Time, db': DB) {
    && db'.devices == db.devices[x.device := Device(e.principal, c.signingKey, c.hpkeKey, 1, DeviceActive)]
    && c.grant in db.grants && db'.grants == db.grants[c.grant := db.grants[c.grant].(state := Consumed,
                                                                                      consumedDevice := Some(x.device))]
    && db'.authorizations == db.authorizations[x.authorization :=
         Authorization(e.principal, x.device, if e.marker.Standard? then Authorized else Provisional, 1,
                       e.provisionalUntil)]
    && db'.policies == db.policies[x.authorization :=
         if e.provisionalUntil.Some? then TrialPolicy(e.provisionalUntil.value / SECOND, "1") else StandardPolicy]
    && e.session in db.sessions
    && db'.sessions == db.sessions[e.session := db.sessions[e.session].(authorization := Some(x.authorization),
                                                                        version := db.sessions[e.session].version + 1)]
    && db'.families == db.families[x.family :=
         Family(x.authorization, FamilyActive, 1, x.access, FirstAccessEnd(e, at), at + 30 * DAY, at + 90 * DAY, at)]
    && db'.refresh == db.refresh[x.refresh := Refresh(x.family, None, Active)]
    && db'.audit == db.audit + [DeviceRegistered(x.authorization)]
    && db'.events == db.events + [AuthorizationChanged(x.authorization, db'.authorizations[x.authorization].state, 1)]
    && db'.records == db.records[RecordKey(RegisterScope, c.key) := RegistrationRecord(c, e, x, at)]
    && db'.accounts == db.accounts && db'.accountRefresh == db.accountRefresh
  }

  lemma CommittedRows(s: State, c: Enroll, e: Enrollment, x: Fresh, at: Time, tx: Tx)
    requires tx == RegisterTx(s.db, s.mode, c, e, x, at) && RecordKey(RegisterScope, c.key) !in s.db.records
    requires ValidateEnrollment(s.db, c.grant, at) == Some(e) && EnrollmentMode(s.mode, e, at) && PolicyFor(e, at).Some?
    requires InsertsAccepted(s.db, e, PolicyFor(e, at).value.0, c, x)
    ensures Enrolled(s.db, e, c, x, at, tx.db) && tx.reply == Tokens(FirstTokens(e, x, at))
  {
  }

  /** Under a fresh key a registration succeeds exactly for an enrollable grant and unclashing draws; then it leaves
      exactly the rows of one new device and returns their tokens, and otherwise it changes nothing. */
  lemma RegistersExactly(s: State, c: Enroll, e: Enrollment, x: Fresh, at: Time, tx: Tx)
    requires Reachable(s) && RecordKey(RegisterScope, c.key) !in s.db.records
    requires tx == RegisterTx(s.db, s.mode, c, e, x, at)
    ensures tx.reply.Tokens? <==> Enrollable(s.db, s.mode, c.grant, e, at) && Unclashing(s.db, e, c, x)
    ensures tx.reply.Tokens? ==> tx.reply == Tokens(FirstTokens(e, x, at)) && Enrolled(s.db, e, c, x, at, tx.db)
    ensures !tx.reply.Tokens? ==> tx.db == s.db
  {
    EnrollableExactly(s, c.grant, e, at);
    if PolicyFor(e, at).Some? { UnclashingExactly(s, e, c, x, at); }
    if Enrollable(s.db, s.mode, c.grant, e, at) && Unclashing(s.db, e, c, x) { CommittedRows(s, c, e, x, at, tx); }
  }

  /** The same as a step of a run. */
  lemma RegisterStep(s: State, c: Enroll, e: Enrollment, x: Fresh, at: Time, s': State)
    requires Reachable(s) && RecordKey(RegisterScope, c.key) !in s.db.records && at <= s.clock
    requires FreshPair(s, x.access, x.refresh) && s' == Apply(s, Register(c, e, x, at))
    requires Enrollable(s.db, s.mode, c.grant, e, at) && Unclashing(s.db, e, c, x)
    ensures Reachable(s') && s'.mode == s.mode && Enrolled(s.db, e, c, x, at, s'.db)
  {
    ReachableStep(s, Register(c, e, x, at));
    RegistersExactly(s, c, e, x, at, RegisterTx(s.db, s.mode, c, e, x, at));
  }

  // ----- what the new device may do -----

  /** The returned access token authorizes exactly until its end, and the returned refresh token is the live root of the
      family, admitted exactly while it has not idled out and a trial runs. */
  lemma RegisteredDeviceWorks(s: State, c: Enroll, e: Enrollment, x: Fresh, at: Time, s': State, now: Time)
    requires Reachable(s) && RecordKey(RegisterScope, c.key) !in s.db.records && at <= s.clock
    requires FreshPair(s, x.access, x.refresh) && s' == Apply(s, Register(c, e, x, at)) && at <= now
    requires Enrollable(s.db, s.mode, c.grant, e, at) && Unclashing(s.db, e, c, x)
    ensures Authorizes(s'.db, s'.mode, x.family, x.access, now) <==> now < FirstAccessEnd(e, at)
    ensures x.refresh in s'.db.refresh && s'.db.refresh[x.refresh] == Refresh(x.family, None, Active)
    ensures LockAuthority(s'.db, s'.mode, x.refresh, now).Some? <==>
            now < at + 30 * DAY && (e.provisionalUntil.Some? ==> now < e.provisionalUntil.value)
  {
    RegisterStep(s, c, e, x, at, s');
    GrantStanding(s, c.grant);
    AuthorizesExactly(s', x.family, x.access, now);
    AdmittedExactly(s', x.refresh, now);
    EnrolledStands(s.db, s.mode, e, c, x, at, s'.db, now);
  }

  /** Nothing but its deadlines can fail a device just enrolled. */
  lemma EnrolledStands(db: DB, mode: Mode, e: Enrollment, c: Enroll, x: Fresh, at: Time, db': DB, now: Time)
    requires Enrolled(db, e, c, x, at, db') && Enrollable(db, mode, c.grant, e, at) && at <= now
    requires GrantOk(db.grants[c.grant], db.accounts, db.sessions) && Rooted(db', x.family)
    ensures FamilyStands(db', mode, x.family, now) <==> (e.provisionalUntil.Some? ==> now < e.provisionalUntil.value)
    ensures db'.families[x.family].accessHash == x.access &&
            db'.families[x.family].accessExpires == FirstAccessEnd(e, at)
  {
    assert GRACE == DAY;
  }

  lemma GrantStanding(s: State, hash: Hash)
    requires Reachable(s) && hash in s.db.grants
    ensures GrantOk(s.db.grants[hash], s.db.accounts, s.db.sessions)
    ensures SessionOk(s.db.sessions[s.db.grants[hash].session], s.db.accounts)
    ensures CutOff(s.db.accounts[s.db.grants[hash].principal]) ==
            s.db.accounts[s.db.grants[hash].principal].createdAt + DAY
  {
    assert GRACE == DAY;
    ReachableGood(s);
  }

  // ----- the replay -----

  /** For a day after it, in any continuation without pruning, the same request under the same key gets the same tokens
      and any other request a conflict, and neither changes anything. */
  lemma RegistrationReplays(s: State, c: Enroll, e: Enrollment, x: Fresh, at: Time, s': State, actions: seq<Action>,
                            last: State, again: Enroll, seen: Enrollment, drawn: Fresh, now: Time)
    requires Reachable(s) && RecordKey(RegisterScope, c.key) !in s.db.records && at <= s.clock
    requires FreshPair(s, x.access, x.refresh) && s' == Apply(s, Register(c, e, x, at))
    requires Enrollable(s.db, s.mode, c.grant, e, at) && Unclashing(s.db, e, c, x)
    requires NoPruning(actions) && last == Run(s', actions)
    requires again.key == c.key && now < at + DAY && PolicyFor(seen, now).Some?
    ensures RegisterTx(last.db, last.mode, again, seen, drawn, now) ==
            Tx(last.db, if again == c then Tokens(FirstTokens(e, x, at)) else Conflicted)
  {
    var key := RecordKey(RegisterScope, c.key);
    assert key in s'.db.records && s'.db.records[key] == RegistrationRecord(c, e, x, at) by {
      RegisterStep(s, c, e, x, at, s');
    }
    RecordAnswers(s', c, e, x, at, actions, last, again, seen, drawn, now);
  }

  lemma RecordAnswers(s: State, c: Enroll, e: Enrollment, x: Fresh, at: Time, actions: seq<Action>, last: State,
                      again: Enroll, seen: Enrollment, drawn: Fresh, now: Time)
    requires RecordKey(RegisterScope, c.key) in s.db.records && again.key == c.key
    requires s.db.records[RecordKey(RegisterScope, c.key)] == RegistrationRecord(c, e, x, at)
    requires now < at + DAY && PolicyFor(seen, now).Some? && NoPruning(actions) && last == Run(s, actions)
    requires x.device != 0 && x.authorization != 0 && x.family != 0 && x.access != 0 && x.refresh != 0
    ensures RegisterTx(last.db, last.mode, again, seen, drawn, now) ==
            Tx(last.db, if again == c then Tokens(FirstTokens(e, x, at)) else Conflicted)
  {
    RecordStays(s, actions, RecordKey(RegisterScope, c.key));
    ReplayedFrom(last.db, last.mode, c, e, x, at, again, seen, drawn, now);
  }

  lemma ReplayedFrom(db: DB, mode: Mode, c: Enroll, e: Enrollment, x: Fresh, at: Time, again: Enroll, seen: Enrollment,
                     drawn: Fresh, now: Time)
    requires RecordKey(RegisterScope, c.key) in db.records && again.key == c.key
    requires db.records[RecordKey(RegisterScope, c.key)] == RegistrationRecord(c, e, x, at)
    requires now < at + DAY && PolicyFor(seen, now).Some? && FirstAccessEnd(e, at) < at + 30 * DAY
    requires x.device != 0 && x.authorization != 0 && x.family != 0 && x.access != 0 && x.refresh != 0
    ensures RegisterTx(db, mode, again, seen, drawn, now) ==
            Tx(db, if again == c then Tokens(FirstTokens(e, x, at)) else Conflicted)
  {
  }

  // ----- unique keys and trials -----

  /** No two devices of one principal share a signing key or an encryption key. */
  ghost predicate KeysUnique(devices: map<Id, Device>) {
    forall d, e {:trigger devices[d], devices[e]} ::
      d in devices && e in devices && d != e && devices[d].principal == devices[e].principal ==>
        devices[d].signingKey != devices[e].signingKey && devices[d].hpkeKey != devices[e].hpkeKey
  }

  /** No principal has two provisional authorizations. */
  ghost predicate OneTrial(authorizations: map<Id, Authorization>) {
    forall a, b {:trigger authorizations[a], authorizations[b]} ::
      && a in authorizations && b in authorizations && authorizations[a].principal == authorizations[b].principal
      && authorizations[a].state.Provisional? && authorizations[b].state.Provisional?
      ==> a == b
  }

  lemma EffectKeepsUnique(db: DB, mode: Mode, effect: Effect, db': DB)
    requires Makes(db, mode, effect, db') && KeysUnique(db.devices) && OneTrial(db.authorizations)
    ensures KeysUnique(db'.devices) && OneTrial(db'.authorizations)
  {
  }

  lemma {:induction false} UniqueRun(s: State, actions: seq<Action>)
    requires KeysUnique(s.db.devices) && OneTrial(s.db.authorizations)
    ensures KeysUnique(Run(s, actions).db.devices) && OneTrial(Run(s, actions).db.authorizations)
    decreases |actions|
  {
    if actions != [] {
      ApplyMakes(s, actions[0]);
      EffectKeepsUnique(s.db, s.mode, EffectOf(s, actions[0]), Apply(s, actions[0]).db);
      UniqueRun(Apply(s, actions[0]), actions[1..]);
    }
  }

  /** In every reachable state keys are not shared between the devices of a principal, and a principal has at most one
      trial. */
  lemma KeysAndTrialsAreUnique(s: State)
    requires Reachable(s)
    ensures KeysUnique(s.db.devices) && OneTrial(s.db.authorizations)
  {
    var s0, actions :| Init(s0) && s == Run(s0, actions);
    UniqueRun(s0, actions);
  }
}
