/** What a rotation call saw in its preflight against what its later steps find, and what a used key answers. */
module Rechecks {
  import opened Schema
  import opened DeviceTx
  import opened Protocol
  import opened Effects
  import opened History
  import opened Records
  import opened Safety
  import opened Attempts
  import opened Outcomes
  import opened Steps
  import opened Theorems
  import opened Calls
  import opened Possession
  import opened Identity

  // ----- what a call saw -----

  predicate Carries(phase: Phase) { phase.AtChallenge? || phase.AtFinal? }

  /** The graph g of token t still leads through the same rows, with the same device key; the authorization may have
      moved on. */
  ghost predicate Seen(db: DB, t: Hash, g: Authority) {
    && g.token == t && Discovered(db, t) && db.refresh[t].family == g.familyId
    && db.families[g.familyId].authorization == g.authorizationId
    && FamilyLater(g.family, db.families[g.familyId])
    && AuthorizationLater(g.authorization, db.authorizations[g.authorizationId])
    && DeviceLater(g.device, db.devices[g.authorization.device])
  }

  ghost predicate IssuedFor(db: DB, ch: Challenge) {
    ch.token in db.refresh && db.refresh[ch.token].family == ch.family
  }

  ghost predicate SeenInv(s: State) {
    && (forall r {:trigger s.attempts[r]} :: r in s.attempts && Carries(s.attempts[r].phase) ==>
          Seen(s.db, s.attempts[r].command.refresh, s.attempts[r].phase.authority))
    && (forall id {:trigger s.issued[id]} :: id in s.issued ==> IssuedFor(s.db, s.issued[id]))
  }

  lemma SeenLater(db: DB, db': DB, t: Hash, g: Authority)
    requires Seen(db, t, g) && Later(db, db')
    ensures Seen(db', t, g)
  {
    assert TokenLater(db.refresh[t], db'.refresh[t]) && FamilyLater(db.families[g.familyId], db'.families[g.familyId]);
    var a, d := g.authorizationId, g.authorization.device;
    assert AuthorizationLater(db.authorizations[a], db'.authorizations[a]);
    assert DeviceLater(db.devices[d], db'.devices[d]);
  }

  /** A call carries on what it saw, or has just seen it. */
  lemma PhaseStep(s: State, action: Action, r: Id, s': State)
    requires s' == Apply(s, action) && r in s'.attempts && Carries(s'.attempts[r].phase)
    ensures r in s.attempts && s'.attempts[r].command == s.attempts[r].command
    ensures || (Carries(s.attempts[r].phase) && s'.attempts[r].phase.authority == s.attempts[r].phase.authority)
            || (Discovered(s.db, s.attempts[r].command.refresh) && s'.db == s.db &&
                s'.attempts[r].phase.authority == AuthorityOf(s.db, s.attempts[r].command.refresh))
  {
    if r in s.attempts && MovesCall(action) && action.attempt == r {
      OwnStep(s, action, r, s');
    } else if r in s.attempts {
      OthersLeaveCall(s, action, r);
    } else {
      CallsStep(s, action);
    }
  }

  lemma OwnStep(s: State, action: Action, r: Id, s': State)
    requires s' == Apply(s, action) && r in s.attempts && MovesCall(action) && action.attempt == r
    requires r in s'.attempts && Carries(s'.attempts[r].phase)
    ensures s'.attempts[r].command == s.attempts[r].command
    ensures || (Carries(s.attempts[r].phase) && s'.attempts[r].phase.authority == s.attempts[r].phase.authority)
            || (Discovered(s.db, s.attempts[r].command.refresh) && s'.db == s.db &&
                s'.attempts[r].phase.authority == AuthorityOf(s.db, s.attempts[r].command.refresh))
  {
    match action
    case Preflight(_, fault) => PreflightSees(s, r, fault, s');
    case Consume(_, fault) => ConsumeCarries(s, r, fault, s');
    case Reclassify(_, fault) => ReclassifyDrops(s, r, fault, s');
    case Final(_, access, refresh, fault) => FinalDrops(s, r, access, refresh, fault, s');
  }

  lemma PreflightSees(s: State, r: Id, fault: Fault, s': State)
    requires s' == Apply(s, Preflight(r, fault)) && r in s.attempts && r in s'.attempts
    requires Carries(s'.attempts[r].phase)
    ensures s'.attempts[r].command == s.attempts[r].command
    ensures || s'.attempts[r] == s.attempts[r]
            || (Discovered(s.db, s.attempts[r].command.refresh) && s'.db == s.db &&
                s'.attempts[r].phase.authority == AuthorityOf(s.db, s.attempts[r].command.refresh))
  {
    if s.attempts[r].phase.AtPreflight? && fault.Clean? {
      var tx := PreflightTx(s.db, s.mode, s.attempts[r].command, s.attempts[r].now);
      assert tx.reply.Proceed?;
    }
  }

  lemma ConsumeCarries(s: State, r: Id, fault: Fault, s': State)
    requires s' == Apply(s, Consume(r, fault)) && r in s.attempts && r in s'.attempts && Carries(s'.attempts[r].phase)
    ensures s'.attempts[r].command == s.attempts[r].command && Carries(s.attempts[r].phase)
    ensures s'.attempts[r].phase.authority == s.attempts[r].phase.authority
  {
  }

  lemma ReclassifyDrops(s: State, r: Id, fault: Fault, s': State)
    requires s' == Apply(s, Reclassify(r, fault)) && r in s.attempts && r in s'.attempts
    requires Carries(s'.attempts[r].phase)
    ensures s'.attempts[r] == s.attempts[r]
  {
  }

  lemma FinalDrops(s: State, r: Id, access: Hash, refresh: Hash, fault: Fault, s': State)
    requires s' == Apply(s, Final(r, access, refresh, fault)) && r in s.attempts && r in s'.attempts
    requires Carries(s'.attempts[r].phase)
    ensures s'.attempts[r] == s.attempts[r]
  {
  }

  lemma IssuedStays(s: State, action: Action, id: Id, s': State)
    requires SeenInv(s) && s' == Apply(s, action) && Later(s.db, s'.db) && id in s'.issued
    ensures IssuedFor(s'.db, s'.issued[id])
  {
    if id in s.issued {
      IssuedStep(s, action, id);
      assert IssuedFor(s.db, s.issued[id]);
      assert TokenLater(s.db.refresh[s.issued[id].token], s'.db.refresh[s.issued[id].token]);
    } else if !action.IssueChallenge? {
      NotIssued(s, action);
    }
  }

  lemma SeenStep(s: State, action: Action, s': State)
    requires SeenInv(s) && s' == Apply(s, action)
    ensures SeenInv(s')
  {
    StepMovesForward(s, action);
    forall r | r in s'.attempts && Carries(s'.attempts[r].phase)
      ensures Seen(s'.db, s'.attempts[r].command.refresh, s'.attempts[r].phase.authority)
    {
      PhaseStep(s, action, r, s');
      if Carries(s.attempts[r].phase) && s'.attempts[r].phase.authority == s.attempts[r].phase.authority {
        SeenLater(s.db, s'.db, s.attempts[r].command.refresh, s.attempts[r].phase.authority);
      }
    }
    forall id | id in s'.issued ensures IssuedFor(s'.db, s'.issued[id]) { IssuedStays(s, action, id, s'); }
  }

  lemma {:induction false} SeenRun(s: State, actions: seq<Action>)
    requires SeenInv(s)
    ensures SeenInv(Run(s, actions))
    decreases |actions|
  {
    if actions != [] {
      SeenStep(s, actions[0], Apply(s, actions[0]));
      SeenRun(Apply(s, actions[0]), actions[1..]);
    }
  }

  lemma ReachableSeen(s: State)
    requires Reachable(s)
    ensures SeenInv(s)
  {
    var s0, actions :| Init(s0) && s == Run(s0, actions);
    SeenRun(s0, actions);
  }

  /** A rotation commits only while the authorization is exactly the row its preflight saw: one that was activated or
      revoked in between refuses the call. */
  lemma RotationFindsWhatItSaw(s: State, action: Action)
    requires Reachable(s) && EffectOf(s, action).Rotating?
    ensures action.Final? && action.attempt in s.attempts && s.attempts[action.attempt].phase.AtFinal?
    ensures var seen := s.attempts[action.attempt].phase.authority;
            && seen.authorizationId in s.db.authorizations
            && s.db.authorizations[seen.authorizationId] == seen.authorization
            && Discovered(s.db, seen.token) && AuthorityOf(s.db, seen.token).authorizationId == seen.authorizationId
  {
    OnlyFinalRotates(s, action);
    ReachableSeen(s);
    assert Seen(s.db, s.attempts[action.attempt].command.refresh, s.attempts[action.attempt].phase.authority);
  }

  // ----- the challenge step -----

  /** The call's challenge is still stored, unexpired, and was issued for its token and nonce. */
  predicate Matches(s: State, a: Attempt) {
    && a.command.challenge in s.challenges
    && var ch := s.challenges[a.command.challenge];
       s.clock < ch.expiresAt && ch.token == a.command.refresh && ch.nonce == a.command.nonce
  }

  /** The call is signed with the key stored for the device behind its token, over its stored challenge. */
  predicate SignedByDevice(s: State, a: Attempt)
    requires Matches(s, a) && Discovered(s.db, a.command.refresh)
  {
    && a.command.signature.key == AuthorityOf(s.db, a.command.refresh).device.signingKey
    && a.command.signature.transcript == RotationTranscript(s.challenges[a.command.challenge].bytes,
                                                            s.db.refresh[a.command.refresh].family, a.command.nonce)
  }

  /** The challenge step, in every reachable state: whatever happens the key is gone unless the command never ran, and
      the call goes on exactly with a matching challenge and the device's signature over it. */
  lemma ChallengeStepExactly(s: State, r: Id, fault: Fault, s': State)
    requires Reachable(s) && r in s.attempts && s.attempts[r].phase.AtChallenge? && s' == Apply(s, Consume(r, fault))
    ensures var a := s.attempts[r];
            && Discovered(s.db, a.command.refresh) && s'.db == s.db && r in s'.attempts
            && s'.challenges == (if fault.Abort? then s.challenges else s.challenges - {a.command.challenge})
            && s'.attempts[r].phase ==
               if !fault.Clean? then AtReclassify(true)
               else if !Matches(s, a) then AtReclassify(false)
               else if SignedByDevice(s, a) then AtFinal(a.phase.authority) else Finished(AuthenticationFailed)
  {
    var a := s.attempts[r];
    assert Seen(s.db, a.command.refresh, a.phase.authority) by { ReachableSeen(s); }
    assert a.now <= s.clock by { ReachableGood(s); }
    if Matches(s, a) {
      assert s.issued[a.command.challenge] == s.challenges[a.command.challenge] by { ReachableGood(s); }
      assert IssuedFor(s.db, s.challenges[a.command.challenge]) by { ReachableSeen(s); }
    }
  }

  // ----- fresh keys -----

  /** The token's request is not on record yet. */
  predicate FreshKey(db: DB, c: Command) { Discovered(db, c.refresh) ==> RecordKeyOf(db, c) !in db.records }

  lemma Admission(s: State, c: Command, now: Time)
    requires Reachable(s) && c.refresh != 0
    ensures LockAuthority(s.db, s.mode, c.refresh, now).Some? <==>
            Live(s.db, s.mode, c.refresh, now) || IsReuse(s.db, s.mode, c.refresh, now)
    ensures LockAuthority(s.db, s.mode, c.refresh, now).Some? ==>
              && Discovered(s.db, c.refresh) && AuthorityOf(s.db, c.refresh).authorization.principal != 0
              && LockAuthority(s.db, s.mode, c.refresh, now).value == AuthorityOf(s.db, c.refresh)
  {
    AdmittedExactly(s, c.refresh, now);
  }

  /** The preflight lets exactly a live token through, compromises exactly on a reused one, and answers authentication
      failed in every other case, changing nothing. */
  lemma PreflightExactly(s: State, c: Command, now: Time, tx: Tx)
    requires Reachable(s) && c.refresh != 0 && FreshKey(s.db, c) && tx == PreflightTx(s.db, s.mode, c, now)
    ensures Live(s.db, s.mode, c.refresh, now) ==> tx == Tx(s.db, Proceed(AuthorityOf(s.db, c.refresh)))
    ensures !Live(s.db, s.mode, c.refresh, now) ==> tx.reply == AuthenticationFailed
    ensures IsReuse(s.db, s.mode, c.refresh, now) ==> |tx.db.events| == |s.db.events| + 1
    ensures !IsReuse(s.db, s.mode, c.refresh, now) ==> tx.db == s.db
  {
    Admission(s, c, now);
  }

  /** After a failed challenge step a reused token still compromises; otherwise an ambiguous reply leaves the outcome
      open and a definite one refuses, and neither changes anything. */
  lemma ReclassifyExactly(s: State, c: Command, now: Time, ambiguous: bool, tx: Tx)
    requires Reachable(s) && c.refresh != 0 && FreshKey(s.db, c) && tx == ReclassifyTx(s.db, s.mode, c, now, ambiguous)
    ensures IsReuse(s.db, s.mode, c.refresh, now) ==>
              tx.reply == AuthenticationFailed && |tx.db.events| == |s.db.events| + 1
    ensures !IsReuse(s.db, s.mode, c.refresh, now) ==>
              tx == Tx(s.db, if ambiguous then Unavailable else AuthenticationFailed)
  {
    Admission(s, c, now);
  }

  lemma SameExactly(db: DB, t: Hash, g: Authority)
    requires Seen(db, t, g)
    ensures SameAuthority(g, AuthorityOf(db, t)) <==> db.authorizations[g.authorizationId] == g.authorization
  {
  }

  /** The final transaction of a signed call with new digests: it rotates exactly a live token whose authorization is
      the one seen before and whose family is not in its last ten minutes. */
  ghost predicate Rotatable(s: State, a: Attempt)
    requires a.phase.AtFinal? && Seen(s.db, a.command.refresh, a.phase.authority)
  {
    var t, seen := a.command.refresh, a.phase.authority;
    && Live(s.db, s.mode, t, a.now) && s.db.authorizations[seen.authorizationId] == seen.authorization
    && Successors(s.db, t, 0, 0, a.now).accessExpires < s.db.families[s.db.refresh[t].family].absoluteExpires - 1
  }

  lemma FinalExactly(s: State, r: Id, access: Hash, refresh: Hash, tx: Tx)
    requires Reachable(s) && r in s.attempts && s.attempts[r].phase.AtFinal? && s.attempts[r].command.refresh != 0
    requires FreshKey(s.db, s.attempts[r].command) && FreshPair(s, access, refresh) && access != 0 && refresh != 0
    requires tx == FinalTx(s.db, s.mode, s.attempts[r].command, s.attempts[r].now, s.attempts[r].phase.authority,
                           access,
                           refresh)
    ensures Seen(s.db, s.attempts[r].command.refresh, s.attempts[r].phase.authority)
    ensures Rotatable(s, s.attempts[r]) ==>
              tx.reply == Tokens(Successors(s.db, s.attempts[r].command.refresh, access, refresh, s.attempts[r].now))
    ensures !Rotatable(s, s.attempts[r]) ==> tx.reply == AuthenticationFailed && tx.db.refresh.Keys == s.db.refresh.Keys
  {
    var a := s.attempts[r];
    assert Seen(s.db, a.command.refresh, a.phase.authority) by { ReachableSeen(s); }
    SameExactly(s.db, a.command.refresh, a.phase.authority);
    Admission(s, a.command, a.now);
    assert refresh !in s.db.refresh && AccessHashFree(s.db.families, access) by { ReachableGood(s); }
    if LockAuthority(s.db, s.mode, a.command.refresh, a.now).Some? {
      RotationTimesExactly(AuthorityOf(s.db, a.command.refresh), a.now, s.mode);
    }
  }

  // ----- keys on record -----

  /** A key on record is spent: expired it is unavailable, under another request a conflict, and under its own request
      it gives the stored answer. */
  function Answer(record: Record, same: bool, now: Time): Reply
    requires record.response.Some?
  {
    if record.expiresAt <= now then Unavailable else if !same then Conflicted else
      match record.response.value.body
      case TokenBody(tokens) => Tokens(tokens)
      case NotAuthenticated => AuthenticationFailed
      case EmptyBody => Done
  }

  /** Every transaction of a rotation call gives exactly that answer and changes nothing. */
  lemma RotationKeyAnswers(s: State, c: Command, now: Time, seen: Authority, access: Hash, refresh: Hash,
                           ambiguous: bool)
    requires Reachable(s) && Discovered(s.db, c.refresh) && RecordKeyOf(s.db, c) in s.db.records
    ensures var record := s.db.records[RecordKeyOf(s.db, c)];
            && record.response.Some?
            && var answer := Tx(s.db, Answer(record, record.request == RequestOf(c), now));
               && PreflightTx(s.db, s.mode, c, now) == answer && ReclassifyTx(s.db, s.mode, c, now, ambiguous) == answer
               && FinalTx(s.db, s.mode, c, now, seen, access, refresh) == answer
  {
    RecordsAreComplete(s, RecordKeyOf(s.db, c), RequestOf(c), now);
    assert AuthorityOf(s.db, c.refresh).authorization.principal != 0 by {
      ReachableGood(s);
      AlwaysDiscovered(s.db, s.pruned, c.refresh);
    }
  }

  lemma RegistrationKeyAnswers(s: State, c: Enroll, seen: Enrollment, x: Fresh, now: Time)
    requires Reachable(s) && RecordKey(RegisterScope, c.key) in s.db.records && PolicyFor(seen, now).Some?
    ensures var record := s.db.records[RecordKey(RegisterScope, c.key)];
            && record.response.Some?
            && RegisterTx(s.db, s.mode, c, seen, x, now) ==
               Tx(s.db, Answer(record, record.request == EnrollRequest(c), now))
  {
    RecordsAreComplete(s, RecordKey(RegisterScope, c.key), EnrollRequest(c), now);
  }

  lemma RevocationKeyAnswers(s: State, r: Revocation, a: Id, now: Time)
    requires Reachable(s) && RecordKey(RevokeScope(r.principal), r.key) in s.db.records
    ensures var record := s.db.records[RecordKey(RevokeScope(r.principal), r.key)];
            && record.response.Some?
            && RevokeTx(s.db, r, a, now) ==
               Tx(s.db, Answer(record, record.request == RevokeRequest(r.device, r.session, r.proof), now))
  {
    RecordsAreComplete(s, RecordKey(RevokeScope(r.principal), r.key), RevokeRequest(r.device, r.session, r.proof), now);
  }
}
