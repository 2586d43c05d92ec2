/** What one call of the device service may leave behind, over every interleaving with the others. */
module Calls {
  import opened Schema
  import opened DeviceTx
  import opened Protocol
  import opened Effects
  import opened Attempts
  import opened Steps
  import opened Theorems
  import opened Possession

  /** A challenge proves at most one call: no two calls in any run got past the same challenge. */
  lemma OneProofPerChallenge(s: State, q: Id, r: Id)
    requires Reachable(s) && q in s.attempts && r in s.attempts && s.attempts[q].proved && s.attempts[r].proved
    requires s.attempts[q].command.challenge == s.attempts[r].command.challenge
    ensures q == r && s.attempts[r].command.challenge !in s.challenges
  {
    assert ProofInv(s) by { ReachableGood(s); }
  }

  /** Only a call that is signed for, and whose challenge no other call got past, rotates. */
  lemma RotationIsProved(s: State, action: Action)
    requires Reachable(s) && EffectOf(s, action).Rotating?
    ensures action.Final? && action.attempt in s.attempts && s.attempts[action.attempt].proved
    ensures SignedFor(s, action.attempt, EffectOf(s, action).g.token)
  {
    RotatingIsSigned(s, action);
    assert ProofInv(s) by { ReachableGood(s); }
  }

  /** A transaction of the device service commits nothing at all, or commits together with one new completed record;
      it never touches a record that was there. */
  ghost predicate CommitsWithRecord(db: DB, db': DB) {
    db' == db ||
    exists k :: k !in db.records && k in db'.records && db'.records == db.records[k := db'.records[k]] &&
                db'.records[k].state.Completed? && db'.records[k].response.Some?
  }

  lemma EffectCommits(db: DB, mode: Mode, effect: Effect, db': DB)
    requires Makes(db, mode, effect, db') && !effect.AccountSide? && !effect.Activating? && !effect.Pruning?
    ensures CommitsWithRecord(db, db')
  {
    match effect
    case Nothing =>
    case Rotating(g, times, access, refresh, key, request, now) =>
      assert db'.records == db.records[key := db'.records[key]];
    case Compromising(g, key, request, now) => assert db'.records == db.records[key := db'.records[key]];
    case Revoking(r, a, key, now) => assert db'.records == db.records[key := db'.records[key]];
    case Registering(c, e, state, policy, x, now) =>
      var key := RecordKey(RegisterScope, c.key);
      assert db'.records == db.records[key := db'.records[key]];
  }

  lemma DeviceEffect(s: State, action: Action)
    requires MovesCall(action) || action.Register? || action.Revoke?
    ensures !EffectOf(s, action).AccountSide? && !EffectOf(s, action).Activating? && !EffectOf(s, action).Pruning?
  {
  }

  /** All or nothing, for every step of every registration, rotation and revocation, whatever fault it meets. */
  lemma DeviceStepsCommitWithRecord(s: State, action: Action)
    requires MovesCall(action) || action.Register? || action.Revoke?
    ensures CommitsWithRecord(s.db, Apply(s, action).db)
  {
    ApplyMakes(s, action);
    DeviceEffect(s, action);
    EffectCommits(s.db, s.mode, EffectOf(s, action), Apply(s, action).db);
  }

  // ----- retries without pruning -----

  ghost predicate NoPruning(actions: seq<Action>) { forall i :: 0 <= i < |actions| ==> !actions[i].Prune? }

  ghost predicate AllAfter(s: State, t: Time) {
    s.pruned == t && t <= s.clock && forall r {:trigger s.attempts[r]} :: r in s.attempts ==> t <= s.attempts[r].now
  }

  lemma AllAfterStep(s: State, action: Action, t: Time)
    requires AllAfter(s, t) && !action.Prune?
    ensures AllAfter(Apply(s, action), t)
  {
    CallsStep(s, action);
    PrunedStep(s, action);
    SeenGrows(s, action);
    OnlyPruneIsPruning(s, action);
  }

  lemma {:induction false} AllAfterRun(s: State, actions: seq<Action>, t: Time)
    requires AllAfter(s, t) && NoPruning(actions)
    ensures AllAfter(Run(s, actions), t)
    decreases |actions|
  {
    if actions != [] {
      AllAfterStep(s, actions[0], t);
      AllAfterRun(Apply(s, actions[0]), actions[1..], t);
    }
  }

  lemma EffectKeepsRecord(db: DB, mode: Mode, effect: Effect, db': DB, k: RecordKey)
    requires Makes(db, mode, effect, db') && !effect.Pruning? && k in db.records
    ensures k in db'.records && db'.records[k] == db.records[k]
  {
  }

  /** Without pruning a record stays as it was written. */
  lemma {:induction false} RecordStays(s: State, actions: seq<Action>, k: RecordKey)
    requires NoPruning(actions) && k in s.db.records
    ensures k in Run(s, actions).db.records && Run(s, actions).db.records[k] == s.db.records[k]
    decreases |actions|
  {
    if actions != [] {
      ApplyMakes(s, actions[0]);
      OnlyPruneIsPruning(s, actions[0]);
      EffectKeepsRecord(s.db, s.mode, EffectOf(s, actions[0]), Apply(s, actions[0]).db, k);
      RecordStays(Apply(s, actions[0]), actions[1..], k);
    }
  }

  /** Nothing in the repository prunes idempotency records; in such runs a call whose token only its own retries
      present never compromises a family, however the retries interleave, stall and fail. */
  lemma RetriesAreSafe(s0: State, actions: seq<Action>, action: Action)
    requires Init(s0) && NoPruning(actions) && MovesCall(action)
    requires action.attempt in Run(s0, actions).attempts && OnlyRetries(Run(s0, actions), action.attempt)
    ensures Apply(Run(s0, actions), action).db.events == Run(s0, actions).db.events
  {
    AllAfterRun(s0, actions, s0.pruned);
    RetriesNeverCompromise(Run(s0, actions), action);
  }

  // ----- ambiguous challenge replies -----

  /** A 401 is on record for the call's own request. */
  ghost predicate RefusedOnRecord(records: map<RecordKey, Record>, c: Command) {
    exists k {:trigger records[k]} ::
      k in records && records[k].request == RequestOf(c) && records[k].response == Some(Response(401, NotAuthenticated))
  }

  /** The call met an ambiguous challenge reply and is still to be reclassified, or it ended, and then with an
      authentication failure only if a 401 is on record. */
  ghost predicate Ambiguous(s: State, r: Id) {
    && r in s.attempts
    && (s.attempts[r].phase == AtReclassify(true) ||
        (s.attempts[r].phase.Finished? &&
         (s.attempts[r].phase.reply.AuthenticationFailed? ==> RefusedOnRecord(s.db.records, s.attempts[r].command))))
  }

  lemma ReclassifiedAsRecorded(db: DB, mode: Mode, c: Command, now: Time, tx: Tx)
    requires tx == ReclassifyTx(db, mode, c, now, true) && tx.reply.AuthenticationFailed?
    ensures RefusedOnRecord(tx.db.records, c)
  {
    var key := RecordKeyOf(db, c);
    assert key in tx.db.records && tx.db.records[key].request == RequestOf(c);
  }

  lemma SettleLeaves(s: State, q: Id, tx: Tx, fault: Fault, r: Id)
    requires q in s.attempts && r in s.attempts && q != r
    ensures r in Settle(s, q, tx, fault).attempts && Settle(s, q, tx, fault).attempts[r] == s.attempts[r]
  {
  }

  lemma AnotherCallMoves(s: State, action: Action, r: Id)
    requires r in s.attempts && MovesCall(action) && action.attempt != r
    ensures r in Apply(s, action).attempts && Apply(s, action).attempts[r] == s.attempts[r]
  {
    var q := action.attempt;
    if q in s.attempts {
      var a := s.attempts[q];
      match action
      case Preflight(_, fault) => SettleLeaves(s, q, PreflightTx(s.db, s.mode, a.command, a.now), fault, r);
      case Reclassify(_, fault) =>
        if a.phase.AtReclassify? {
          SettleLeaves(s, q, ReclassifyTx(s.db, s.mode, a.command, a.now, a.phase.ambiguous), fault, r);
        }
      case Final(_, access, refresh, fault) =>
        if a.phase.AtFinal? {
          SettleLeaves(s, q, FinalTx(s.db, s.mode, a.command, a.now, a.phase.authority, access, refresh), fault, r);
        }
      case Consume(_, fault) => if a.phase.AtChallenge? { ConsumeLeaves(s, q, fault, r); }
    }
  }

  lemma ConsumeLeaves(s: State, q: Id, fault: Fault, r: Id)
    requires q in s.attempts && r in s.attempts && q != r && s.attempts[q].phase.AtChallenge?
    ensures r in ConsumeStep(s, q, fault).attempts && ConsumeStep(s, q, fault).attempts[r] == s.attempts[r]
  {
  }

  lemma OthersLeaveCall(s: State, action: Action, r: Id)
    requires r in s.attempts && !(MovesCall(action) && action.attempt == r)
    ensures r in Apply(s, action).attempts && Apply(s, action).attempts[r] == s.attempts[r]
  {
    if MovesCall(action) { AnotherCallMoves(s, action, r); } else if !action.Start? { IdleCalls(s, action); }
  }

  lemma FinishedStays(s: State, action: Action, r: Id)
    requires r in s.attempts && s.attempts[r].phase.Finished?
    ensures r in Apply(s, action).attempts && Apply(s, action).attempts[r] == s.attempts[r]
  {
    if !(MovesCall(action) && action.attempt == r) { OthersLeaveCall(s, action, r); }
  }

  lemma OnRecordStays(s: State, action: Action, c: Command)
    requires RefusedOnRecord(s.db.records, c) && !action.Prune?
    ensures RefusedOnRecord(Apply(s, action).db.records, c)
  {
    var k :| k in s.db.records && s.db.records[k].request == RequestOf(c) &&
             s.db.records[k].response == Some(Response(401, NotAuthenticated));
    ApplyMakes(s, action);
    OnlyPruneIsPruning(s, action);
    EffectKeepsRecord(s.db, s.mode, EffectOf(s, action), Apply(s, action).db, k);
  }

  lemma ReclassifyEnds(s: State, r: Id, fault: Fault, s': State)
    requires r in s.attempts && s.attempts[r].phase == AtReclassify(true) && s' == Apply(s, Reclassify(r, fault))
    ensures Ambiguous(s', r)
  {
    var a := s.attempts[r];
    var tx := ReclassifyTx(s.db, s.mode, a.command, a.now, true);
    if tx.reply.AuthenticationFailed? { ReclassifiedAsRecorded(s.db, s.mode, a.command, a.now, tx); }
  }

  lemma AmbiguousStep(s: State, action: Action, r: Id)
    requires Ambiguous(s, r) && !action.Prune?
    ensures Ambiguous(Apply(s, action), r)
  {
    if s.attempts[r].phase.Finished? {
      FinishedStays(s, action, r);
      if s.attempts[r].phase.reply.AuthenticationFailed? { OnRecordStays(s, action, s.attempts[r].command); }
    } else if action.Reclassify? && action.attempt == r {
      ReclassifyEnds(s, r, action.fault, Apply(s, action));
    } else if MovesCall(action) && action.attempt == r {
      assert Apply(s, action) == s;
    } else {
      OthersLeaveCall(s, action, r);
    }
  }

  lemma {:induction false} AmbiguousRun(s: State, actions: seq<Action>, r: Id)
    requires Ambiguous(s, r) && NoPruning(actions)
    ensures Ambiguous(Run(s, actions), r)
    decreases |actions|
  {
    if actions != [] {
      AmbiguousStep(s, actions[0], r);
      AmbiguousRun(Apply(s, actions[0]), actions[1..], r);
    }
  }

  /** A call whose challenge reply was lost never ends in an authentication failure, in any continuation without
      pruning, unless a 401 is on record for it: the one its own compromise stored, or one it replayed. */
  lemma LostReplyIsNoRefusal(s: State, r: Id, fault: Fault, s1: State, actions: seq<Action>, last: State)
    requires r in s.attempts && s.attempts[r].phase.AtChallenge? && !fault.Clean? && NoPruning(actions)
    requires s1 == Apply(s, Consume(r, fault)) && last == Run(s1, actions)
    ensures r in last.attempts
    ensures last.attempts[r].phase == Finished(AuthenticationFailed) ==>
              RefusedOnRecord(last.db.records, last.attempts[r].command)
  {
    assert s1.attempts[r].phase == AtReclassify(true);
    AmbiguousRun(s1, actions, r);
  }
}
