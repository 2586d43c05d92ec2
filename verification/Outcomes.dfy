/** What reuse, revocation, rotation, registration and the end of a trial mean for every later state. */
module Outcomes {
  import opened Schema
  import opened Identity
  import opened DeviceTx
  import opened Protocol
  import opened Effects
  import opened Chains
  import opened History
  import opened Records
  import opened Safety
  import opened Attempts
  import opened Steps
  import opened Ties
  import opened Trial
  import opened Graph
  import opened Theorems

  // ----- a retry after success -----

  lemma RecordOutlivesFamily(records: map<RecordKey, Record>, families: map<Id, Family>, refresh: map<Hash, Refresh>,
                             k: RecordKey, h: Hash)
    requires RecordInv(records, families, refresh) && k in records && Rotates(records[k], h)
    requires forall f :: f in families ==> families[f].absoluteExpires == families[f].createdAt + DEVICE_ABSOLUTE_TTL
    ensures k.scope.RotateScope? && records[k].response.value.body.tokens.absoluteExpires <= records[k].expiresAt
    ensures TokensFromReplay(records[k].response.value, 200) == Some(records[k].response.value.body.tokens)
  {
    assert WellFormed(k, records[k]) && Linked(records[k], families, refresh);
  }

  /** Foreign keys hold: every stored refresh token leads to its whole graph. */
  lemma AlwaysDiscovered(db: DB, pruned: Time, h: Hash)
    requires DeviceInv(db, pruned) && TrialInv(db) && GraphInv(db) && h in db.refresh
    ensures Discovered(db, h) && AuthorityOf(db, h).authorization.principal != 0
  {
  }

  /** The instant lies before the end of the family that token h belongs to. */
  predicate BeforeExpiry(db: DB, h: Hash, at: Time) {
    h in db.refresh && db.refresh[h].family in db.families && at < db.families[db.refresh[h].family].absoluteExpires
  }

  /** Once a call succeeded, retrying it at any time before the family expires returns the same tokens and changes
      nothing. */
  lemma RetryReplays(s: State, q: Id, r: Id)
    requires Reachable(s) && q in s.attempts && r in s.attempts && Succeeded(s.attempts[r]) &&
             s.attempts[q].phase.AtPreflight?
    requires s.attempts[q].command.refresh == s.attempts[r].command.refresh && OnlyRetries(s, q)
    requires BeforeExpiry(s.db, s.attempts[q].command.refresh, s.attempts[q].now)
    requires BeforeExpiry(s.db, s.attempts[q].command.refresh, s.pruned)
    ensures Apply(s, Preflight(q, Clean)) == Goto(s, q, Finished(s.attempts[r].phase.reply))
  {
    var a := s.attempts[q];
    var t := s.attempts[r].phase.reply.tokens;
    assert PreflightTx(s.db, s.mode, a.command, a.now) == Tx(s.db, Tokens(t)) by {
      ReachableGood(s);
      RetryFinds(s, q, a.command.refresh, t);
      ReplayFound(s.db, s.pruned, a.command, a.now, t, s.mode);
    }
  }

  lemma RetryFinds(s: State, q: Id, h: Hash, t: DeviceTokens)
    requires Good(s) && q in s.attempts && h == s.attempts[q].command.refresh && OnlyRetries(s, q)
    requires Answered(h, t, s.db.records, s.db.refresh) && BeforeExpiry(s.db, h, s.pruned)
    ensures Discovered(s.db, h) && AuthorityOf(s.db, h).authorization.principal != 0
    ensures var k := RecordKeyOf(s.db, s.attempts[q].command);
            k in s.db.records && Rotates(s.db.records[k], h) &&
            s.db.records[k].request == RequestOf(s.attempts[q].command)
  {
    assert SpentOnRecord(s.db.records, h) by {
      PredecessorUsed(s.db.families, s.db.refresh, s.db.events, h, t.refresh);
    }
    AlwaysDiscovered(s.db, s.pruned, h);
    RetryFindsRecord(s, q);
  }

  lemma ReplayFound(db: DB, pruned: Time, c: Command, now: Time, t: DeviceTokens, mode: Mode)
    requires DeviceInv(db, pruned) && Discovered(db, c.refresh) &&
             AuthorityOf(db, c.refresh).authorization.principal != 0
    requires RecordKeyOf(db, c) in db.records && Rotates(db.records[RecordKeyOf(db, c)], c.refresh)
    requires db.records[RecordKeyOf(db, c)].request == RequestOf(c) && Answered(c.refresh, t, db.records, db.refresh)
    requires now < AuthorityOf(db, c.refresh).family.absoluteExpires
    ensures PreflightTx(db, mode, c, now) == Tx(db, Tokens(t))
  {
    var k := RecordKeyOf(db, c);
    RotatesMeansUsed(db.records, db.families, db.refresh, db.events, k, c.refresh);
    RecordOutlivesFamily(db.records, db.families, db.refresh, k, c.refresh);
    assert Linked(db.records[k], db.families, db.refresh) && WellFormed(k, db.records[k]);
  }

  // ----- families that ended -----

  lemma EndedFamilyIsDead(db: DB, mode: Mode, f: Id, now: Time)
    requires f in db.families && !db.families[f].state.FamilyActive?
    ensures forall access :: !Authorizes(db, mode, f, access, now)
    ensures forall token ::
              token in db.refresh && db.refresh[token].family == f ==> LockAuthority(db, mode, token, now).None?
  {
  }

  /** A compromised or revoked family never rotates or authorizes again, in any continuation. */
  lemma EndedForever(s: State, actions: seq<Action>, f: Id, now: Time)
    requires f in s.db.families && !s.db.families[f].state.FamilyActive?
    ensures var s' := Run(s, actions);
            && f in s'.db.families && !s'.db.families[f].state.FamilyActive?
            && (forall access :: !Authorizes(s'.db, s'.mode, f, access, now))
            && (forall token :: token in s'.db.refresh && s'.db.refresh[token].family == f ==>
                                  LockAuthority(s'.db, s'.mode, token, now).None?)
  {
    RunMovesForward(s, actions);
    var s' := Run(s, actions);
    assert FamilyLater(s.db.families[f], s'.db.families[f]);
    EndedFamilyIsDead(s'.db, s'.mode, f, now);
  }

  // ----- reuse -----

  /** Everything behind a presented token is in order, apart from the token being used and the idle deadline. */
  predicate GraphInOrder(s: State, a: Attempt) {
    && Discovered(s.db, a.command.refresh)
    && var g := AuthorityOf(s.db, a.command.refresh);
       && g.state.Used? && g.token != 0 && g.familyId != 0 && g.authorizationId != 0 && g.authorization.device != 0 &&
          g.authorization.principal != 0
       && g.family.state.FamilyActive? && a.now < g.family.absoluteExpires
       && MarkerValid(s.mode, g.authorization, a.now)
       && g.device.principal == g.authorization.principal && g.device.state.DeviceActive?
       && AccountAuthority(s.db, g.authorization.principal, a.now)
       && RecordKeyOf(s.db, a.command) !in s.db.records
  }

  lemma InOrderCompromises(s: State, a: Attempt)
    requires GraphInOrder(s, a)
    ensures PreflightTx(s.db, s.mode, a.command, a.now) ==
            Tx(Compromise(s.db, AuthorityOf(s.db, a.command.refresh), RecordKeyOf(s.db, a.command),
                          RequestOf(a.command), a.now), AuthenticationFailed)
  {
    assert LockAuthority(s.db, s.mode, a.command.refresh, a.now) == Some(AuthorityOf(s.db, a.command.refresh));
  }

  /** An active family has exactly one live token, and revoking the live ones revokes just that. */
  lemma LiveToken(families: map<Id, Family>, refresh: map<Hash, Refresh>, events: seq<Event>, f: Id)
    returns (live: Hash)
    requires ChainInv(families, refresh, events) && f in families && families[f].state.FamilyActive?
    ensures live in refresh && refresh[live].family == f && refresh[live].state.Active?
    ensures RevokeActive(refresh, f) == refresh[live := refresh[live].(state := Revoked)]
  {
    assert FamilyChain(f, families[f], refresh, events);
    var c :| IsChain(c, f, true, refresh) && VersionCounts(families[f], |c|, Compromises(events, f));
    live := c[|c| - 1];
    forall h | h in refresh && refresh[h].family == f && refresh[h].state.Active? ensures h == live {
      ActiveIsNewest(c, f, true, refresh, h);
    }
  }

  /** The database after one reuse is detected: one family compromised, one live token revoked, one event, one
      security record, one stored 401. */
  function Reused(db: DB, g: Authority, live: Hash, k: RecordKey, request: Request, now: Time): DB
    requires live in db.refresh
  {
    db.(families := db.families[g.familyId := g.family.(state := FamilyCompromised, version := g.family.version + 1)],
        refresh := db.refresh[live := db.refresh[live].(state := Revoked)],
        events := db.events + [FamilyCompromisedEvent(g.authorizationId, g.familyId, g.family.version + 1)],
        audit := db.audit + [DeviceTokenReplay(g.authorizationId)],
        records := db.records[k := Record(request, Completed, Some(Response(401, NotAuthenticated)), now,
                                          now + ROTATION_RETENTION)])
  }

  /** Presenting a used token under a fresh key, even past the idle deadline, commits one compromise that revokes
      exactly the one live token of the family, whether or not the client learns of it. */
  lemma ReuseCompromises(s: State, r: Id, fault: Fault) returns (live: Hash)
    requires Reachable(s) && r in s.attempts && s.attempts[r].phase.AtPreflight? && GraphInOrder(s, s.attempts[r]) &&
             !fault.Abort?
    ensures live in s.db.refresh && s.db.refresh[live].state.Active?
    ensures s.db.refresh[live].family == s.db.refresh[s.attempts[r].command.refresh].family
    ensures var a := s.attempts[r];
            Apply(s, Preflight(r, fault)) ==
            Goto(WithDB(s, Reused(s.db, AuthorityOf(s.db, a.command.refresh), live, RecordKeyOf(s.db, a.command),
                                  RequestOf(a.command), a.now)),
                 r, Finished(if fault.Clean? then AuthenticationFailed else Unavailable))
  {
    var a := s.attempts[r];
    var g := AuthorityOf(s.db, a.command.refresh);
    assert ChainInv(s.db.families, s.db.refresh, s.db.events) by { ReachableGood(s); }
    live := LiveToken(s.db.families, s.db.refresh, s.db.events, g.familyId);
    InOrderCompromises(s, a);
    RevokesLive(s.db, g, live, RecordKeyOf(s.db, a.command), RequestOf(a.command), a.now);
  }

  lemma RevokesLive(db: DB, g: Authority, live: Hash, k: RecordKey, request: Request, now: Time)
    requires live in db.refresh && g.familyId in db.families
    requires RevokeActive(db.refresh, g.familyId) == db.refresh[live := db.refresh[live].(state := Revoked)]
    ensures Compromise(db, g, k, request, now) == Reused(db, g, live, k, request, now)
  {
  }

  // ----- an honest rotation -----

  /** A call that proved itself with the live token of a graph in order is rotated, unless the family is in the last
      ten minutes of its life: it gets exactly the successor pair, and the next presentation of that successor finds
      it live. */
  lemma HonestRotationSucceeds(db: DB, mode: Mode, c: Command, now: Time, seen: Authority, access: Hash, refresh: Hash)
    requires LockAuthority(db, mode, c.refresh, now) == Some(seen) && seen.state.Active? &&
             RecordKeyOf(db, c) !in db.records
    requires access != 0 && refresh != 0 && refresh !in db.refresh && AccessHashFree(db.families, access)
    requires AccessEnd(seen, now) < seen.family.absoluteExpires - 1
    ensures var tx := FinalTx(db, mode, c, now, seen, access, refresh);
            && tx.reply.Tokens? && tx.reply.tokens.access == access && tx.reply.tokens.refresh == refresh
            && tx.db.refresh[c.refresh].state.Used?
            && var next := LockAuthority(tx.db, mode, refresh, now);
               && next.Some? && next.value.state.Active? && next.value.familyId == seen.familyId
               && next.value.family == seen.family.(accessHash := access, accessExpires := AccessEnd(seen, now),
                    idleExpires := Min(now + DEVICE_IDLE_TTL,
                                       seen.family.absoluteExpires - 1), version := seen.family.version + 1)
  {
    RotationTimesExactly(seen, now, mode);
  }

  // ----- revocation -----

  lemma RevokedGraph(db: DB, r: Revocation, a: Id, now: Time)
    requires RevokeTx(db, r, a, now).db != db
    ensures var db' := RevokeTx(db, r, a, now).db;
            && a in db.authorizations && a in db'.authorizations && db'.authorizations[a].state.AuthRevoked?
            && db'.authorizations[a].version == db.authorizations[a].version + 1
            && r.device == db.authorizations[a].device && r.device in db'.devices &&
               db'.devices[r.device].state.DeviceRevoked?
            && (forall f :: f in db'.families && db'.families[f].authorization == a ==>
                              db'.families[f].state.FamilyRevoked?)
            && (forall s :: s in db'.sessions && db'.sessions[s].authorization == Some(a) ==>
                  !db'.sessions[s].state.SessionActive? && !db'.sessions[s].state.ReviewRequired?)
            && db'.events == db.events + [AuthorizationChanged(a, AuthRevoked, db'.authorizations[a].version)]
  {
  }

  /** After RevokeDevice commits, its families, authorization and device are revoked together and stay so: in every
      continuation no token of the device rotates and no access token of it authorizes. */
  lemma RevokedForever(s: State, r: Revocation, a: Id, at: Time, actions: seq<Action>, f: Id, now: Time)
    requires Reachable(s) && at <= s.clock && RevokeTx(s.db, r, a, at).db != s.db
    requires f in s.db.families && s.db.families[f].authorization == a
    ensures var s' := Run(Apply(s, Revoke(r, a, at)), actions);
            && a in s'.db.authorizations && s'.db.authorizations[a].state.AuthRevoked?
            && r.device in s'.db.devices && s'.db.devices[r.device].state.DeviceRevoked?
            && f in s'.db.families && s'.db.families[f].state.FamilyRevoked?
            && (forall access :: !Authorizes(s'.db, s'.mode, f, access, now))
            && (forall token :: token in s'.db.refresh && s'.db.refresh[token].family == f ==>
                                  LockAuthority(s'.db, s'.mode, token, now).None?)
  {
    var s1 := Apply(s, Revoke(r, a, at));
    RevokedGraph(s.db, r, a, at);
    StepMovesForward(s, Revoke(r, a, at));
    assert FamilyLater(s.db.families[f], s1.db.families[f]);
    RunMovesForward(s1, actions);
    EndedForever(s1, actions, f, now);
    var s' := Run(s1, actions);
    assert FamilyLater(s1.db.families[f], s'.db.families[f]) &&
           AuthorizationLater(s1.db.authorizations[a], s'.db.authorizations[a]) &&
           DeviceLater(s1.db.devices[r.device], s'.db.devices[r.device]);
  }

  // ----- replaced access tokens -----

  ghost predicate DeadAccess(s: State, access: Hash) {
    access in s.seen && AccessHashFree(s.db.families, access)
  }

  lemma DeadAccessStep(s: State, action: Action, access: Hash)
    requires DeadAccess(s, access)
    ensures DeadAccess(Apply(s, action), access)
  {
    ApplyMakes(s, action);
    FreshStep(s, action);
    EffectHashes(s.db, s.mode, EffectOf(s, action), Apply(s, action).db);
  }

  /** An access token that was once seen and is no family's current one never authorizes again. */
  lemma {:induction false} DeadAccessForever(s: State, actions: seq<Action>, access: Hash, f: Id, now: Time)
    requires DeadAccess(s, access)
    ensures DeadAccess(Run(s, actions), access) && !Authorizes(Run(s, actions).db, Run(s, actions).mode, f, access, now)
    decreases |actions|
  {
    if actions != [] {
      DeadAccessStep(s, actions[0], access);
      DeadAccessForever(Apply(s, actions[0]), actions[1..], access, f, now);
    }
  }

  /** Rotation kills the access token it replaces. */
  lemma RotationReplacesAccess(s: State, r: Id, access: Hash, refresh: Hash, fault: Fault)
    requires Reachable(s) && EffectOf(s, Final(r, access, refresh, fault)).Rotating?
    ensures var g := EffectOf(s, Final(r, access, refresh, fault)).g;
            DeadAccess(Apply(s, Final(r, access, refresh, fault)), g.family.accessHash)
  {
    var action := Final(r, access, refresh, fault);
    var g := EffectOf(s, action).g;
    assert TimelyInv(s) && AccessUnique(s.db.families) by { ReachableGood(s); }
    assert g.familyId in s.db.families && s.db.families[g.familyId].accessHash == g.family.accessHash by {
      ApplyMakes(s, action);
    }
    assert g.family.accessHash in Apply(s, action).seen by { FreshStep(s, action); }
    assert AccessHashFree(Apply(s, action).db.families, g.family.accessHash) by { ApplyMakes(s, action); }
  }
}
