/** Every action keeps the protocol invariant, so every run does. */
module Steps {
  import opened Schema
  import opened Identity
  import opened DeviceTx
  import opened Chains
  import opened History
  import opened Records
  import opened Protocol
  import opened Effects
  import opened Safety
  import opened Attempts

  ghost predicate Inv(s: State) {
    && DeviceInv(s.db, s.pruned)
    && TimelyInv(s)
    && AnswerInv(s.attempts, s.db.records, s.db.refresh)
    && OriginInv(s.attempts, s.db.records)
    && ProofInv(s) && SignedInv(s)
  }

  lemma InitHolds(s: State)
    requires Init(s)
    ensures Inv(s)
  {
  }

  // ----- device tables -----

  lemma RotatingIsTimely(s: State, action: Action)
    requires TimelyInv(s) && EffectOf(s, action).Rotating?
    ensures EffectOf(s, action).g.family.createdAt <= EffectOf(s, action).now
  {
    assert action.attempt in s.attempts &&
           Timely(s.attempts[action.attempt], s.clock, s.seen, s.db.families, s.db.refresh);
  }

  function PrunedBy(effect: Effect, pruned: Time): Time {
    if effect.Pruning? && pruned < effect.cutoff then effect.cutoff else pruned
  }

  lemma FamilyEffectKeeps(db: DB, mode: Mode, pruned: Time, effect: Effect, db': DB)
    requires DeviceInv(db, pruned) && Makes(db, mode, effect, db') && (effect.Rotating? || effect.Compromising?)
    requires effect.Rotating? ==> effect.g.family.createdAt <= effect.now
    ensures DeviceInv(db', PrunedBy(effect, pruned))
  {
    match effect
    case Rotating(g, times, access, refresh, key, request, now) =>
      RotationKeeps(db, mode, pruned, g, times, access, refresh, key, request, now);
    case Compromising(g, key, request, now) => CompromiseKeeps(db, mode, pruned, g, key, request, now);
  }

  lemma RowEffectKeeps(db: DB, mode: Mode, pruned: Time, effect: Effect, db': DB)
    requires DeviceInv(db, pruned) && Makes(db, mode, effect, db') && (effect.Revoking? || effect.Registering?)
    ensures DeviceInv(db', PrunedBy(effect, pruned))
  {
    match effect
    case Revoking(r, a, key, now) => RevocationKeeps(db, pruned, r, a, key, now);
    case Registering(c, e, state, policy, x, now) => RegistrationKeeps(db, pruned, e, state, policy, c, x, now);
  }

  lemma OtherEffectKeeps(db: DB, mode: Mode, pruned: Time, effect: Effect, db': DB)
    requires DeviceInv(db, pruned) && Makes(db, mode, effect, db')
    requires effect.Activating? || effect.Pruning? || effect.AccountSide? || effect.Nothing?
    ensures DeviceInv(db', PrunedBy(effect, pruned))
  {
    match effect
    case Activating(p, now) => ActivationKeeps(db, pruned, p, now);
    case Pruning(cutoff) => PruningKeeps(db, pruned, cutoff);
    case _ =>
  }

  lemma EffectKeeps(db: DB, mode: Mode, pruned: Time, effect: Effect, db': DB)
    requires DeviceInv(db, pruned) && Makes(db, mode, effect, db')
    requires effect.Rotating? ==> effect.g.family.createdAt <= effect.now
    ensures DeviceInv(db', PrunedBy(effect, pruned))
  {
    if effect.Rotating? || effect.Compromising? { FamilyEffectKeeps(db, mode, pruned, effect, db'); }
    else if effect.Revoking? || effect.Registering? { RowEffectKeeps(db, mode, pruned, effect, db'); }
    else { OtherEffectKeeps(db, mode, pruned, effect, db'); }
  }

  lemma PrunedStep(s: State, action: Action)
    ensures Apply(s, action).pruned == PrunedBy(EffectOf(s, action), s.pruned)
  {
    if !action.Prune? {
      assert Apply(s, action).pruned == s.pruned by { PrunedKept(s, action); }
      OnlyPruneIsPruning(s, action);
    }
  }

  lemma PrunedKept(s: State, action: Action)
    requires !action.Prune?
    ensures Apply(s, action).pruned == s.pruned
  {
  }

  lemma OnlyPruneIsPruning(s: State, action: Action)
    requires !action.Prune?
    ensures !EffectOf(s, action).Pruning?
  {
  }

  lemma DeviceStep(s: State, action: Action)
    requires DeviceInv(s.db, s.pruned) && TimelyInv(s)
    ensures DeviceInv(Apply(s, action).db, Apply(s, action).pruned)
  {
    ApplyMakes(s, action);
    PrunedStep(s, action);
    if EffectOf(s, action).Rotating? { RotatingIsTimely(s, action); }
    EffectKeeps(s.db, s.mode, s.pruned, EffectOf(s, action), Apply(s, action).db);
  }

  // ----- clocks and freshness -----

  function NewHashes(effect: Effect): set<Hash> {
    match effect
    case Rotating(_, _, access, refresh, _, _, _) => {access, refresh}
    case Registering(_, _, _, _, x, _) => {x.access, x.refresh}
    case _ => {}
  }

  lemma SeenGrows(s: State, action: Action)
    ensures s.clock <= Apply(s, action).clock && s.seen <= Apply(s, action).seen
  {
  }

  lemma DrawnAreNew(s: State, action: Action)
    ensures NewHashes(EffectOf(s, action)) <= Apply(s, action).seen
    ensures NewHashes(EffectOf(s, action)) !! s.seen
  {
  }

  /** Time and the set of seen digests only grow, and digests an effect introduces are new. */
  lemma FreshStep(s: State, action: Action)
    ensures s.clock <= Apply(s, action).clock && s.seen <= Apply(s, action).seen
    ensures NewHashes(EffectOf(s, action)) <= Apply(s, action).seen
    ensures NewHashes(EffectOf(s, action)) !! s.seen
    ensures EffectOf(s, action).Registering? ==> EffectOf(s, action).now <= s.clock
  {
    SeenGrows(s, action);
    DrawnAreNew(s, action);
  }

  lemma EffectHashes(db: DB, mode: Mode, effect: Effect, db': DB)
    requires Makes(db, mode, effect, db')
    ensures forall h {:trigger db'.refresh[h]} :: h in db'.refresh ==> h in db.refresh || h in NewHashes(effect)
    ensures forall f {:trigger db'.families[f]} :: f in db'.families ==>
              && ((f in db.families && db'.families[f].accessHash == db.families[f].accessHash) ||
                  db'.families[f].accessHash in NewHashes(effect))
              && (f in db.families || (effect.Registering? && db'.families[f].createdAt == effect.now))
  {
  }

  /** An action starts at most one call, at the current time, and otherwise leaves every call's command and clock
      reading alone. */
  predicate SameCalls(s: State, s': State) {
    && (forall r {:trigger s'.attempts[r]} :: r in s'.attempts ==>
          if r in s.attempts then s'.attempts[r].command == s.attempts[r].command &&
             s'.attempts[r].now == s.attempts[r].now
          else s'.attempts[r].now == s.clock && s'.attempts[r].command.refresh in s'.seen && s'.db == s.db &&
               s'.attempts[r].phase.AtPreflight? && !s'.attempts[r].proved)
    && (forall r {:trigger s.attempts[r]} :: r in s.attempts ==> r in s'.attempts)
  }

  predicate MovesCall(action: Action) { action.Preflight? || action.Consume? || action.Reclassify? || action.Final? }

  lemma IdleCalls(s: State, action: Action)
    requires !MovesCall(action) && !action.Start?
    ensures Apply(s, action).attempts == s.attempts
  {
  }

  lemma SettleCalls(s: State, s': State, r: Id, tx: Tx, fault: Fault, seen: set<Hash>)
    requires r in s.attempts && s.seen <= seen && s' == Settle(s, r, tx, fault).(seen := seen)
    ensures SameCalls(s, s')
  {
    assert s'.attempts == s.attempts[r := s'.attempts[r]];
  }

  lemma PreflightCalls(s: State, r: Id, fault: Fault)
    ensures SameCalls(s, Apply(s, Preflight(r, fault)))
  {
    if r in s.attempts && s.attempts[r].phase.AtPreflight? {
      SettleCalls(s, Apply(s, Preflight(r, fault)), r,
                  PreflightTx(s.db, s.mode, s.attempts[r].command, s.attempts[r].now), fault, s.seen);
    }
  }

  lemma ReclassifyCalls(s: State, r: Id, fault: Fault)
    ensures SameCalls(s, Apply(s, Reclassify(r, fault)))
  {
    if r in s.attempts && s.attempts[r].phase.AtReclassify? {
      SettleCalls(s, Apply(s, Reclassify(r, fault)), r,
                  ReclassifyTx(s.db, s.mode, s.attempts[r].command, s.attempts[r].now,
                               s.attempts[r].phase.ambiguous), fault, s.seen);
    }
  }

  lemma FinalCalls(s: State, r: Id, access: Hash, refresh: Hash, fault: Fault)
    ensures SameCalls(s, Apply(s, Final(r, access, refresh, fault)))
  {
    if r in s.attempts && s.attempts[r].phase.AtFinal? && FreshPair(s, access, refresh) {
      SettleCalls(s, Apply(s, Final(r, access, refresh, fault)), r,
                  FinalTx(s.db, s.mode, s.attempts[r].command, s.attempts[r].now, s.attempts[r].phase.authority, access,
                          refresh), fault,
                  s.seen + {access, refresh});
    }
  }

  lemma ConsumeCalls(s: State, r: Id, fault: Fault)
    ensures SameCalls(s, Apply(s, Consume(r, fault)))
  {
  }

  lemma CallsStep(s: State, action: Action)
    ensures SameCalls(s, Apply(s, action))
  {
    match action
    case Preflight(r, fault) => PreflightCalls(s, r, fault);
    case Reclassify(r, fault) => ReclassifyCalls(s, r, fault);
    case Final(r, access, refresh, fault) => FinalCalls(s, r, access, refresh, fault);
    case Consume(r, fault) => ConsumeCalls(s, r, fault);
    case Start(r, c) => assert Apply(s, action).db == s.db;
    case _ => IdleCalls(s, action);
  }

  lemma TimelyKeeps(s: State, effect: Effect, s': State)
    requires TimelyInv(s) && Makes(s.db, s.mode, effect, s'.db) && Later(s.db, s'.db) && SameCalls(s, s')
    requires forall h {:trigger s.db.refresh[h]} :: h in s.db.refresh ==> s.db.refresh[h].family in s.db.families
    requires s.clock <= s'.clock && s.seen <= s'.seen && NewHashes(effect) <= s'.seen && NewHashes(effect) !! s.seen
    requires effect.Registering? ==> effect.now <= s.clock
    ensures TimelyInv(s')
  {
    EffectHashes(s.db, s.mode, effect, s'.db);
    forall r | r in s'.attempts ensures Timely(s'.attempts[r], s'.clock, s'.seen, s'.db.families, s'.db.refresh) {
      if r in s.attempts {
        assert Timely(s.attempts[r], s.clock, s.seen, s.db.families, s.db.refresh);
        var h := s.attempts[r].command.refresh;
        if h in s'.db.refresh {
          assert h in s.db.refresh;
          assert TokenLater(s.db.refresh[h], s'.db.refresh[h]) &&
                 FamilyLater(s.db.families[s.db.refresh[h].family], s'.db.families[s.db.refresh[h].family]);
        }
      }
    }
  }

  lemma TimelyStep(s: State, action: Action)
    requires Inv(s)
    ensures TimelyInv(Apply(s, action))
  {
    ApplyMakes(s, action);
    StepMovesForward(s, action);
    CallsStep(s, action);
    FreshStep(s, action);
    TimelyKeeps(s, EffectOf(s, action), Apply(s, action));
  }

  // ----- answers -----

  /** What the answers of finished calls rest on. */
  ghost predicate Answering(s: State) { DeviceInv(s.db, s.pruned) && AnswerInv(s.attempts, s.db.records, s.db.refresh) }

  ghost predicate Consistent(s: State) { AnswerInv(s.attempts, s.db.records, s.db.refresh) }

  lemma SettleAnswers(s: State, r: Id, tx: Tx, fault: Fault, effect: Effect, seen: set<Hash>)
    requires Answering(s) && r in s.attempts && !s.attempts[r].phase.Finished? && Makes(s.db, s.mode, effect, tx.db)
    requires tx.reply.Tokens? ==>
               Answered(s.attempts[r].command.refresh, tx.reply.tokens, tx.db.records, tx.db.refresh) &&
               SpentOnRecord(tx.db.records, s.attempts[r].command.refresh)
    ensures Consistent(Settle(s, r, tx, fault)) && Consistent(Settle(s, r, tx, fault).(seen := seen))
  {
    var s' := Settle(s, r, tx, fault);
    if !fault.Abort? {
      assert AnswerInv(s.attempts, tx.db.records, tx.db.refresh) by {
        EffectMovesForward(s.db, s.mode, effect, tx.db);
        OldAnswersKeep(s.db, s.mode, s.pruned, effect, tx.db, s.attempts);
      }
    }
    AnswerAdded(s.attempts, s'.db.records, s'.db.refresh, r, s'.attempts[r]);
  }

  lemma PreflightAnswers(s: State, r: Id, fault: Fault)
    requires Answering(s)
    ensures Consistent(Apply(s, Preflight(r, fault)))
  {
    if r in s.attempts && s.attempts[r].phase.AtPreflight? {
      var a := s.attempts[r];
      var tx := PreflightTx(s.db, s.mode, a.command, a.now);
      PreflightMakes(s.db, s.mode, a.command, a.now);
      if tx.reply.Tokens? { ReplayAnswers(s.db, s.pruned, a.command, a.now, tx.reply.tokens); }
      SettleAnswers(s, r, tx, fault, LockedEffect(s.db, s.mode, a.command, a.now, None), s.seen);
    }
  }

  lemma ReclassifyAnswers(s: State, r: Id, fault: Fault)
    requires Answering(s)
    ensures Consistent(Apply(s, Reclassify(r, fault)))
  {
    if r in s.attempts && s.attempts[r].phase.AtReclassify? {
      var a := s.attempts[r];
      var tx := ReclassifyTx(s.db, s.mode, a.command, a.now, a.phase.ambiguous);
      ReclassifyMakes(s.db, s.mode, a.command, a.now, a.phase.ambiguous);
      if tx.reply.Tokens? { ReplayAnswers(s.db, s.pruned, a.command, a.now, tx.reply.tokens); }
      SettleAnswers(s, r, tx, fault, LockedEffect(s.db, s.mode, a.command, a.now, None), s.seen);
    }
  }

  lemma FinalAnswers(s: State, r: Id, access: Hash, refresh: Hash, fault: Fault)
    requires Answering(s)
    ensures Consistent(Apply(s, Final(r, access, refresh, fault)))
  {
    if r in s.attempts && s.attempts[r].phase.AtFinal? {
      var a := s.attempts[r];
      var tx := FinalTx(s.db, s.mode, a.command, a.now, a.phase.authority, access, refresh);
      FinalMakes(s.db, s.mode, a.command, a.now, a.phase.authority, access, refresh);
      if tx.reply.Tokens? {
        RotationAnswers(s.db, s.pruned, s.mode, a.command, a.now, a.phase.authority, access, refresh, tx.reply.tokens);
      }
      SettleAnswers(s, r, tx, fault,
                    LockedEffect(s.db, s.mode, a.command, a.now, Some((a.phase.authority, access, refresh))), s.seen +
                    {access, refresh});
    }
  }

  lemma IdleAnswers(s: State, action: Action)
    requires Answering(s) && !MovesCall(action) && !action.Start?
    ensures Consistent(Apply(s, action))
  {
    ApplyMakes(s, action);
    StepMovesForward(s, action);
    OldAnswersKeep(s.db, s.mode, s.pruned, EffectOf(s, action), Apply(s, action).db, s.attempts);
    IdleCalls(s, action);
  }

  lemma StartAnswers(s: State, r: Id, c: Command)
    requires Consistent(s)
    ensures Consistent(Apply(s, Start(r, c)))
  {
    AnswerAdded(s.attempts, s.db.records, s.db.refresh, r, Attempt(c, s.clock, AtPreflight, false));
  }

  lemma ConsumeAnswers(s: State, r: Id, fault: Fault)
    requires Consistent(s)
    ensures Consistent(Apply(s, Consume(r, fault)))
  {
    if r in s.attempts && s.attempts[r].phase.AtChallenge? {
      AnswerAdded(s.attempts, s.db.records, s.db.refresh, r, ConsumeStep(s, r, fault).attempts[r]);
    }
  }

  lemma AnswerStep(s: State, action: Action)
    requires Answering(s)
    ensures Consistent(Apply(s, action))
  {
    match action
    case Preflight(r, fault) => PreflightAnswers(s, r, fault);
    case Reclassify(r, fault) => ReclassifyAnswers(s, r, fault);
    case Final(r, access, refresh, fault) => FinalAnswers(s, r, access, refresh, fault);
    case Start(r, c) => StartAnswers(s, r, c);
    case Consume(r, fault) => ConsumeAnswers(s, r, fault);
    case _ => IdleAnswers(s, action);
  }

  // ----- origins -----

  predicate FromCall(s: State, effect: Effect) {
    match effect
    case Rotating(_, _, _, _, key, request, _) =>
      exists r {:trigger s.attempts[r]} ::
        r in s.attempts && s.attempts[r].command.key == key.key && RequestOf(s.attempts[r].command) == request
    case Compromising(_, key, request, _) =>
      exists r {:trigger s.attempts[r]} ::
        r in s.attempts && s.attempts[r].command.key == key.key && RequestOf(s.attempts[r].command) == request
    case _ => true
  }

  lemma EffectFromCall(s: State, action: Action)
    ensures FromCall(s, EffectOf(s, action))
  {
    if MovesCall(action) && action.attempt in s.attempts {
      var a := s.attempts[action.attempt];
    }
  }

  lemma OriginKeeps(s: State, effect: Effect, s': State)
    requires OriginInv(s.attempts, s.db.records) && Makes(s.db, s.mode, effect, s'.db) && FromCall(s, effect) &&
             SameCalls(s, s')
    ensures OriginInv(s'.attempts, s'.db.records)
  {
    forall k | k in s'.db.records && s'.db.records[k].request.RotateRequest?
      ensures Originates(s'.attempts, k, s'.db.records[k].request) {
      assert Originates(s.attempts, k, s'.db.records[k].request);
      var r :| r in s.attempts && s.attempts[r].command.key == k.key &&
               RequestOf(s.attempts[r].command) == s'.db.records[k].request;
      assert s'.attempts[r].command == s.attempts[r].command;
    }
  }

  lemma OriginStep(s: State, action: Action)
    requires OriginInv(s.attempts, s.db.records)
    ensures OriginInv(Apply(s, action).attempts, Apply(s, action).db.records)
  {
    ApplyMakes(s, action);
    CallsStep(s, action);
    EffectFromCall(s, action);
    OriginKeeps(s, EffectOf(s, action), Apply(s, action));
  }

  // ----- challenges -----

  lemma SettleProofs(s: State, r: Id, tx: Tx, fault: Fault)
    requires ProofInv(s) && r in s.attempts
    ensures ProofInv(Settle(s, r, tx, fault))
  {
  }

  lemma ConsumeProofs(s: State, r: Id, fault: Fault)
    requires ProofInv(s) && r in s.attempts && s.attempts[r].phase.AtChallenge?
    ensures ProofInv(ConsumeStep(s, r, fault))
  {
  }

  lemma ProofFrame(s: State, s': State)
    requires ProofInv(s) && s'.attempts == s.attempts && s'.challenges == s.challenges &&
             s'.issued == s.issued
    ensures ProofInv(s')
  {
  }

  lemma StartProofs(s: State, action: Action)
    requires ProofInv(s) && (action.Start? || action.IssueChallenge?)
    ensures ProofInv(Apply(s, action))
  {
  }

  lemma ChallengesIdle(s: State, action: Action)
    requires !MovesCall(action) && !action.Start? && !action.IssueChallenge?
    ensures Apply(s, action).challenges == s.challenges && Apply(s, action).issued == s.issued
  {
  }

  lemma IdleProofs(s: State, action: Action)
    requires ProofInv(s) && !MovesCall(action)
    ensures ProofInv(Apply(s, action))
  {
    if action.Start? || action.IssueChallenge? {
      StartProofs(s, action);
    } else {
      IdleCalls(s, action);
      ChallengesIdle(s, action);
      ProofFrame(s, Apply(s, action));
    }
  }

  lemma ProofStep(s: State, action: Action)
    requires ProofInv(s)
    ensures ProofInv(Apply(s, action))
  {
    match action
    case Preflight(r, fault) =>
      if r in s.attempts { SettleProofs(s, r, PreflightTx(s.db, s.mode, s.attempts[r].command, s.attempts[r].now),
                                        fault); }
    case Reclassify(r, fault) =>
      if r in s.attempts && s.attempts[r].phase.AtReclassify? {
        SettleProofs(s, r, ReclassifyTx(s.db, s.mode, s.attempts[r].command, s.attempts[r].now,
                                        s.attempts[r].phase.ambiguous), fault);
      }
    case Final(r, access, refresh, fault) =>
      if r in s.attempts && s.attempts[r].phase.AtFinal? {
        SettleProofs(s, r, FinalTx(s.db, s.mode, s.attempts[r].command, s.attempts[r].now,
                                   s.attempts[r].phase.authority, access, refresh), fault);
      }
    case Consume(r, fault) => if r in s.attempts && s.attempts[r].phase.AtChallenge? { ConsumeProofs(s, r, fault); }
    case _ => IdleProofs(s, action);
  }

  lemma SettleSigned(s: State, r: Id, tx: Tx, fault: Fault)
    requires SignedInv(s) && r in s.attempts
    ensures SignedInv(Settle(s, r, tx, fault))
  {
  }

  lemma ConsumeSigned(s: State, r: Id, fault: Fault)
    requires SignedInv(s) && r in s.attempts && s.attempts[r].phase.AtChallenge?
    ensures SignedInv(ConsumeStep(s, r, fault))
  {
  }

  lemma OpeningSigned(s: State, action: Action)
    requires SignedInv(s) && (action.Start? || action.IssueChallenge?)
    ensures SignedInv(Apply(s, action))
  {
  }

  lemma SignedFrame(s: State, s': State)
    requires SignedInv(s) && s'.attempts == s.attempts && s'.challenges == s.challenges && s'.issued == s.issued
    ensures SignedInv(s')
  {
  }

  lemma IdleSigned(s: State, action: Action)
    requires SignedInv(s) && !MovesCall(action)
    ensures SignedInv(Apply(s, action))
  {
    if action.Start? || action.IssueChallenge? {
      OpeningSigned(s, action);
    } else {
      IdleCalls(s, action);
      ChallengesIdle(s, action);
      SignedFrame(s, Apply(s, action));
    }
  }

  lemma SignedStep(s: State, action: Action)
    requires SignedInv(s)
    ensures SignedInv(Apply(s, action))
  {
    match action
    case Preflight(r, fault) =>
      if r in s.attempts {
        SettleSigned(s, r, PreflightTx(s.db, s.mode, s.attempts[r].command, s.attempts[r].now), fault);
      }
    case Reclassify(r, fault) =>
      if r in s.attempts && s.attempts[r].phase.AtReclassify? {
        SettleSigned(s, r, ReclassifyTx(s.db, s.mode, s.attempts[r].command, s.attempts[r].now,
                                        s.attempts[r].phase.ambiguous), fault);
      }
    case Final(r, access, refresh, fault) =>
      if r in s.attempts && s.attempts[r].phase.AtFinal? {
        SettleSigned(s, r, FinalTx(s.db, s.mode, s.attempts[r].command, s.attempts[r].now,
                                   s.attempts[r].phase.authority, access, refresh), fault);
      }
    case Consume(r, fault) => if r in s.attempts && s.attempts[r].phase.AtChallenge? { ConsumeSigned(s, r, fault); }
    case _ => IdleSigned(s, action);
  }

  // ----- runs -----

  lemma InvStep(s: State, action: Action)
    requires Inv(s)
    ensures Inv(Apply(s, action))
  {
    DeviceStep(s, action);
    TimelyStep(s, action);
    AnswerStep(s, action);
    OriginStep(s, action);
    ProofStep(s, action);
    SignedStep(s, action);
  }
}
